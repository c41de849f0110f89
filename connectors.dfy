/** `syncIntegrations`: mapping the snapshot's connectors onto the
    destination (store hit, or create once and publish/upload each version)
    and then matching or creating its integrations. */
module Connectors {
  import opened Js
  import opened Text
  import opened Remote

  // ---------------------------------------------------------------------
  // Grouping: `sourceConnectors[connector.id][connector.version] = connector`

  /** Connector records by id, then by version, both as property keys. */
  type Grouped = Dict<Dict<Element>>

  function IdKey(c: Element): string
  {
    ToJsString(Get(c, "id"))
  }

  function VersionKey(c: Element): string
  {
    ToJsString(Get(c, "version"))
  }

  predicate Under(c: Element, id: string, version: string)
  {
    IdKey(c) == id && VersionKey(c) == version
  }

  /** The record stored under `id` and `version`, if any. */
  function Filed(g: Grouped, id: string, version: string): Option<Element>
  {
    match Lookup(g, id)
    case None => None
    case Some(d) => Lookup(d, version)
  }

  /** One iteration of the grouping loop. */
  function Place(g: Grouped, c: Element): (r: Grouped)
    ensures forall id, version :: Filed(r, id, version) == if Under(c, id, version) then Some(c) else Filed(g, id, version)
  {
    var inner := match Lookup(g, IdKey(c)) case None => [] case Some(d) => d;
    Assign(g, IdKey(c), Assign(inner, VersionKey(c), c))
  }

  function Group(g: Grouped, cs: seq<Element>): Grouped
    decreases |cs|
  {
    if |cs| == 0 then g else Group(Place(g, cs[0]), cs[1..])
  }

  /** The last of `cs` filed under `id` and `version`. */
  function LastUnder(cs: seq<Element>, id: string, version: string): (r: Option<Element>)
    ensures r.None? <==> forall i :: 0 <= i < |cs| ==> !Under(cs[i], id, version)
    ensures r.Some? ==> exists i :: 0 <= i < |cs| && cs[i] == r.value && Under(cs[i], id, version)
                                    && forall j :: i < j < |cs| ==> !Under(cs[j], id, version)
  {
    if |cs| == 0 then None
    else
      var rest := LastUnder(cs[1..], id, version);
      assert forall i :: 1 <= i < |cs| ==> cs[1..][i - 1] == cs[i];
      if rest.Some? then
        ghost var i :| 0 <= i < |cs[1..]| && cs[1..][i] == rest.value && Under(cs[1..][i], id, version)
                       && forall j :: i < j < |cs[1..]| ==> !Under(cs[1..][j], id, version);
        assert cs[i + 1] == rest.value;
        rest
      else if Under(cs[0], id, version) then Some(cs[0])
      else None
  }

  /** Grouping keeps, for each id and version, the last record seen; pairs
      that none of `cs` has keep what was there before. */
  lemma {:induction false} GroupLastWins(g: Grouped, cs: seq<Element>, id: string, version: string)
    ensures Filed(Group(g, cs), id, version) ==
      if LastUnder(cs, id, version).Some? then LastUnder(cs, id, version) else Filed(g, id, version)
    decreases |cs|
  {
    if |cs| > 0 {
      GroupLastWins(Place(g, cs[0]), cs[1..], id, version);
    }
  }

  /** The grouping loop of `syncIntegrations`. */
  method GroupConnectors(cs: seq<Element>) returns (g: Grouped)
    ensures g == Group([], cs)
  {
    g := [];
    var i := 0;
    while i < |cs|
      invariant 0 <= i <= |cs|
      invariant Group(g, cs[i..]) == Group([], cs)
    {
      assert cs[i..][1..] == cs[i + 1..];
      var c := cs[i];
      var inner := Lookup(g, IdKey(c));
      var d := if inner.None? then [] else inner.value;
      g := Assign(g, IdKey(c), Assign(d, VersionKey(c), c));
      i := i + 1;
    }
  }

  // ---------------------------------------------------------------------
  // Connector records and versions

  /** What the process environment and the file system contribute:
      `IMPORT_WORKSPACE_ID`, and which connector archives exist. */
  datatype Env = Env(workspaceId: Value, zipExists: string -> bool)

  /** The calls so far, `connectorsMapping`, and the error once thrown. */
  datatype Progress = Progress(log: seq<Call>, ids: Dict<Value>, err: Option<Error>)

  /** `connectorsMapping[k]`: `undefined` for an id not mapped yet. */
  function Mapped(ids: Dict<Value>, k: string): (v: Value)
    ensures Lookup(ids, k).None? ==> v == Undefined
  {
    match Lookup(ids, k)
    case None => Undefined
    case Some(v) => v
  }

  /** `connectors/<name>_<id>/<version>/<version>.zip` under the package root. */
  function ZipPath(c: Element, version: string): string
  {
    JoinPath(["connectors", ToJsString(Get(c, "name")) + "_" + IdKey(c), version, version + ".zip"])
  }

  /** The upload endpoint for the development version, `publish-version` otherwise. */
  function VersionCall(target: string, version: string): (c: Call)
    ensures c.UploadDevelopment? <==> version == "development"
    ensures c.UploadDevelopment? || c.PublishVersion?
    ensures c.UploadDevelopment? ==> c == UploadDevelopment(target)
    ensures c.PublishVersion? ==> c == PublishVersion(target, version)
  {
    if version != "development" then PublishVersion(target, version) else UploadDevelopment(target)
  }

  /** The store connector with the same `appUuid`, when the record has a truthy one. */
  function StoreHit(store: seq<Element>, c: Element): Option<Element>
  {
    if Truthy(Get(c, "appUuid")) then FindBy(store, "appUuid", Get(c, "appUuid")) else None
  }

  /** `iApp.post("connectors", {...connector, workspaceId})`; the response's
      `id` becomes the mapping. */
  function CreateRecord(server: Server, env: Env, st: Progress, c: Element): (r: Progress)
  {
    var call := CreateConnector(c["workspaceId" := env.workspaceId]);
    var issued := Issue(server, st.log, call);
    if issued.Failed() then Progress(issued.log, st.ids, issued.err)
    else Progress(issued.log, Assign(st.ids, IdKey(c), server.newId(st.log, call)), None)
  }

  /** One version of one source connector. */
  function SyncVersion(server: Server, env: Env, store: seq<Element>, st: Progress, version: string, source: Element): Progress
  {
    match StoreHit(store, source)
    case Some(hit) => st.(ids := Assign(st.ids, IdKey(source), Get(hit, "id")))
    case None =>
      var c := source - {"baseUri"};
      var st1 := if Truthy(Mapped(st.ids, IdKey(c))) then st else CreateRecord(server, env, st, c);
      if st1.err.Some? then st1
      else if !env.zipExists(ZipPath(c, version)) then st1.(err := Some(FileMissing(ZipPath(c, version))))
      else
        var issued := Issue(server, st1.log, VersionCall(ToJsString(Mapped(st1.ids, IdKey(c))), version));
        Progress(issued.log, st1.ids, issued.err)
  }

  function SyncVersions(server: Server, env: Env, store: seq<Element>, st: Progress, inner: Dict<Element>, versions: seq<string>): Progress
    decreases |versions|
  {
    if st.err.Some? || |versions| == 0 then st
    else
      var st' := match Lookup(inner, versions[0])
        case None => st
        case Some(c) => SyncVersion(server, env, store, st, versions[0], c);
      SyncVersions(server, env, store, st', inner, versions[1..])
  }

  /** Every source id in key order, each with its versions in sorted order. */
  function SyncGroups(server: Server, env: Env, store: seq<Element>, st: Progress, g: Grouped): Progress
    decreases |g|
  {
    if st.err.Some? || |g| == 0 then st
    else SyncGroups(server, env, store, SyncVersions(server, env, store, st, g[0].1, SortStrings(Keys(g[0].1))), g[1..])
  }

  /** A store hit maps the id to the store connector's id and sends nothing. */
  lemma StoreHitMapsDirectly(server: Server, env: Env, store: seq<Element>, st: Progress, version: string, c: Element)
    requires StoreHit(store, c).Some?
    ensures var r := SyncVersion(server, env, store, st, version, c);
      var hit := StoreHit(store, c).value;
      && r.log == st.log && r.err == st.err
      && Lookup(r.ids, IdKey(c)) == Some(Get(hit, "id"))
      && Truthy(Get(c, "appUuid")) && LooseEq(Get(hit, "appUuid"), Get(c, "appUuid"))
  {
    var hit := StoreHit(store, c).value;
    assert LooseEq(Get(hit, "appUuid"), Get(c, "appUuid"));
  }

  /** Without a store hit, the record is created first exactly when no truthy
      mapping exists for its id yet, with `baseUri` dropped and the
      workspace id set.  A missing archive then throws before any version
      call; otherwise the version is published or, for "development",
      uploaded to the mapped id. */
  lemma SyncVersionWithoutHit(server: Server, env: Env, store: seq<Element>, st: Progress, version: string, source: Element)
    requires st.err.None?
    requires StoreHit(store, source).None?
    ensures var r := SyncVersion(server, env, store, st, version, source);
      var c := source - {"baseUri"};
      var create := CreateConnector(c["workspaceId" := env.workspaceId]);
      var k := IdKey(source);
      var zip := ZipPath(source, version);
      var missing := Some(FileMissing(zip));
      && (Truthy(Mapped(st.ids, k)) && env.zipExists(zip) ==>
            r == Progress(st.log + [VersionCall(ToJsString(Mapped(st.ids, k)), version)], st.ids,
                          if server.succeeds(st.log, VersionCall(ToJsString(Mapped(st.ids, k)), version))
                          then None else Some(Rejected(VersionCall(ToJsString(Mapped(st.ids, k)), version)))))
      && (Truthy(Mapped(st.ids, k)) && !env.zipExists(zip) ==> r == Progress(st.log, st.ids, missing))
      && (!Truthy(Mapped(st.ids, k)) ==> |r.log| > |st.log| && r.log[|st.log|] == create)
      && (!Truthy(Mapped(st.ids, k)) && !server.succeeds(st.log, create) ==>
            r == Progress(st.log + [create], st.ids, Some(Rejected(create))))
      && (!Truthy(Mapped(st.ids, k)) && server.succeeds(st.log, create) ==>
            var id := server.newId(st.log, create);
            && Lookup(r.ids, k) == Some(id)
            && (env.zipExists(zip) ==> r.log == st.log + [create, VersionCall(ToJsString(id), version)])
            && (!env.zipExists(zip) ==> r.log == st.log + [create] && r.err == missing))
  {
    var c := source - {"baseUri"};
    assert IdKey(c) == IdKey(source) && ZipPath(c, version) == ZipPath(source, version);
  }

  /** `syncIntegrations`' connector loops. */
  method SyncConnectors(server: Server, env: Env, store: seq<Element>, st0: Progress, g: Grouped)
    returns (st: Progress)
    requires st0.err.None?
    ensures st == SyncGroups(server, env, store, st0, g)
  {
    st := st0;
    var i := 0;
    while i < |g|
      invariant 0 <= i <= |g|
      invariant st.err.None?
      invariant SyncGroups(server, env, store, st, g[i..]) == SyncGroups(server, env, store, st0, g)
    {
      assert g[i..][1..] == g[i + 1..];
      var inner := g[i].1;
      var versions := SortStrings(Keys(inner));
      ghost var before := st;
      var j := 0;
      while j < |versions|
        invariant 0 <= j <= |versions|
        invariant st.err.None?
        invariant SyncVersions(server, env, store, st, inner, versions[j..]) == SyncVersions(server, env, store, before, inner, versions)
      {
        assert versions[j..][1..] == versions[j + 1..];
        var version := versions[j];
        assert version in multiset(Keys(inner));
        var connector := Lookup(inner, version).value;
        var hit := StoreHit(store, connector);
        if hit.Some? {
          st := st.(ids := Assign(st.ids, IdKey(connector), Get(hit.value, "id")));
        } else {
          connector := connector - {"baseUri"};
          var id := IdKey(connector);
          if !Truthy(Mapped(st.ids, id)) {
            var create := CreateConnector(connector["workspaceId" := env.workspaceId]);
            var ok := server.succeeds(st.log, create);
            var newId := server.newId(st.log, create);
            st := st.(log := st.log + [create]);
            if !ok {
              return st.(err := Some(Rejected(create)));
            }
            st := st.(ids := Assign(st.ids, id, newId));
          }
          var zip := ZipPath(connector, version);
          if !env.zipExists(zip) {
            return st.(err := Some(FileMissing(zip)));
          }
          var call := VersionCall(ToJsString(Mapped(st.ids, id)), version);
          var ok := server.succeeds(st.log, call);
          st := st.(log := st.log + [call]);
          if !ok {
            return st.(err := Some(Rejected(call)));
          }
        }
        j := j + 1;
      }
      i := i + 1;
    }
  }

  // ---------------------------------------------------------------------
  // Integrations

  /** The calls so far, `integrationMissmatchErrors`, and the error once thrown. */
  datatype Matching = Matching(log: seq<Call>, mismatches: seq<Element>, err: Option<Error>)

  /** `versions.find((item) => item.version == v)`. */
  function VersionWith(versions: seq<Element>, v: Value): Option<Element>
  {
    FindBy(versions, "version", v)
  }

  /** The `try` block for an integration the destination lacks: create it,
      then switch it to the source's connector version when the destination
      has one with that name.  A rejection of either call is caught and
      records the integration as a mismatch. */
  function CreateIntegrationStep(server: Server, st: Matching, connectorId: Value, versions: seq<Element>, integration: Element): Matching
  {
    var create := CreateIntegration(connectorId, Get(integration, "key"), Get(integration, "name"));
    var log := st.log + [create];
    if !server.succeeds(st.log, create) then Matching(log, st.mismatches + [integration], None)
    else
      var created := server.newId(st.log, create);
      var versionId := match VersionWith(versions, Get(integration, "connectorVersion"))
        case None => Undefined
        case Some(v) => Get(v, "id");
      if !Truthy(versionId) then Matching(log, st.mismatches, None)
      else
        var switch := SwitchVersion(ToJsString(created), versionId);
        if server.succeeds(log, switch) then Matching(log + [switch], st.mismatches, None)
        else Matching(log + [switch], st.mismatches + [integration], None)
  }

  /** One source integration, given `connectorsMapping` and the destination's integrations. */
  function SyncIntegration(server: Server, ids: Dict<Value>, destination: Dict<seq<Element>>, st: Matching, integration: Element): Matching
  {
    match Lookup(destination, "integrations")
    case None => st.(err := Some(TypeError("destinationData.integrations is undefined")))
    case Some(existing) =>
      var matched := FindBy(existing, "key", Get(integration, "key"));
      var connectorId := Mapped(ids, ToJsString(Get(integration, "connectorId")));
      var get := GetConnectorVersions(ToJsString(connectorId));
      if !server.succeeds(st.log, get) then Matching(st.log + [get], st.mismatches, Some(Rejected(get)))
      else
        var versions := server.list(st.log, get);
        var st1 := st.(log := st.log + [get]);
        var wanted := Get(integration, "connectorVersion");
        match matched
        case None =>
          if Truthy(Get(integration, "workspaceId")) then st1
          else CreateIntegrationStep(server, st1, connectorId, versions, integration)
        case Some(m) =>
          if Truthy(wanted) && !LooseEq(wanted, Get(m, "connectorVersion")) then
            match VersionWith(versions, wanted)
            case None => st1.(err := Some(TypeError("cannot read 'id' of undefined")))
            case Some(v) =>
              var issued := Issue(server, st1.log, SwitchVersion(ToJsString(Get(m, "id")), Get(v, "id")));
              Matching(issued.log, st1.mismatches, issued.err)
          else st1
  }

  function SyncIntegrationList(server: Server, ids: Dict<Value>, destination: Dict<seq<Element>>, st: Matching, integrations: seq<Element>): Matching
    decreases |integrations|
  {
    if st.err.Some? || |integrations| == 0 then st
    else SyncIntegrationList(server, ids, destination, SyncIntegration(server, ids, destination, st, integrations[0]), integrations[1..])
  }

  /** A destination integration with the same key whose connector version
      differs from a truthy source version is switched to the destination
      version of that name, on its own id; a missing version throws. */
  lemma SwitchOnVersionDrift(server: Server, ids: Dict<Value>, destination: Dict<seq<Element>>, st: Matching, integration: Element)
    requires Lookup(destination, "integrations").Some?
    requires FindBy(Lookup(destination, "integrations").value, "key", Get(integration, "key")).Some?
    ensures var m := FindBy(Lookup(destination, "integrations").value, "key", Get(integration, "key")).value;
      var get := GetConnectorVersions(ToJsString(Mapped(ids, ToJsString(Get(integration, "connectorId")))));
      var wanted := Get(integration, "connectorVersion");
      var r := SyncIntegration(server, ids, destination, st, integration);
      && r.mismatches == st.mismatches
      && |r.log| > |st.log| && r.log[..|st.log| + 1] == st.log + [get]
      && (server.succeeds(st.log, get) && !(Truthy(wanted) && !LooseEq(wanted, Get(m, "connectorVersion"))) ==>
            r == st.(log := st.log + [get]))
      && (server.succeeds(st.log, get) && Truthy(wanted) && !LooseEq(wanted, Get(m, "connectorVersion")) ==>
            match VersionWith(server.list(st.log, get), wanted)
            case None => r.err.Some? && r.log == st.log + [get]
            case Some(v) => r.log == st.log + [get, SwitchVersion(ToJsString(Get(m, "id")), Get(v, "id"))])
  {
  }

  /** An integration the destination lacks and the snapshot does not tie to
      its own workspace is created under the mapped connector id; a rejected
      create is recorded as a mismatch and the loop goes on. */
  lemma CreateMissingIntegration(server: Server, ids: Dict<Value>, destination: Dict<seq<Element>>, st: Matching, integration: Element)
    requires Lookup(destination, "integrations").Some?
    requires FindBy(Lookup(destination, "integrations").value, "key", Get(integration, "key")).None?
    requires !Truthy(Get(integration, "workspaceId"))
    ensures var connectorId := Mapped(ids, ToJsString(Get(integration, "connectorId")));
      var get := GetConnectorVersions(ToJsString(connectorId));
      var create := CreateIntegration(connectorId, Get(integration, "key"), Get(integration, "name"));
      var r := SyncIntegration(server, ids, destination, st, integration);
      && (server.succeeds(st.log, get) ==>
            && r.err.None?
            && |r.log| >= |st.log| + 2 && r.log[..|st.log| + 2] == st.log + [get, create]
            && (r.mismatches == st.mismatches || r.mismatches == st.mismatches + [integration]))
      && (server.succeeds(st.log, get) && !server.succeeds(st.log + [get], create) ==>
            r == Matching(st.log + [get, create], st.mismatches + [integration], None))
  {
    var connectorId := Mapped(ids, ToJsString(Get(integration, "connectorId")));
    var get := GetConnectorVersions(ToJsString(connectorId));
    if server.succeeds(st.log, get) {
      var st1 := st.(log := st.log + [get]);
      var r := CreateIntegrationStep(server, st1, connectorId, server.list(st.log, get), integration);
      assert r.log[..|st.log| + 2] == st.log + [get, CreateIntegration(connectorId, Get(integration, "key"), Get(integration, "name"))];
    }
  }

  /** One integration adds itself to the mismatches or leaves them alone. */
  lemma SyncIntegrationMismatches(server: Server, ids: Dict<Value>, destination: Dict<seq<Element>>, st: Matching, integration: Element)
    ensures var r := SyncIntegration(server, ids, destination, st, integration);
      r.mismatches == st.mismatches || r.mismatches == st.mismatches + [integration]
  {
    if Lookup(destination, "integrations").Some? {
      var existing := Lookup(destination, "integrations").value;
      var connectorId := Mapped(ids, ToJsString(Get(integration, "connectorId")));
      var get := GetConnectorVersions(ToJsString(connectorId));
      if server.succeeds(st.log, get) && FindBy(existing, "key", Get(integration, "key")).None?
         && !Truthy(Get(integration, "workspaceId")) {
        var st1 := st.(log := st.log + [get]);
        assert SyncIntegration(server, ids, destination, st, integration)
            == CreateIntegrationStep(server, st1, connectorId, server.list(st.log, get), integration);
      }
    }
  }

  /** Integration `x`'s turn adds it to the mismatch list: the destination
      has no integration with its key, its workspace is not a custom one,
      the versions GET succeeds, and then the create, or the version switch
      of the created integration, is rejected. */
  predicate CreateRejected(server: Server, ids: Dict<Value>, destination: Dict<seq<Element>>, st: Matching, x: Element)
  {
    && Lookup(destination, "integrations").Some?
    && FindBy(Lookup(destination, "integrations").value, "key", Get(x, "key")).None?
    && !Truthy(Get(x, "workspaceId"))
    && var connectorId := Mapped(ids, ToJsString(Get(x, "connectorId")));
       var get := GetConnectorVersions(ToJsString(connectorId));
       var log := st.log + [get];
       var create := CreateIntegration(connectorId, Get(x, "key"), Get(x, "name"));
       var versionId := match VersionWith(server.list(st.log, get), Get(x, "connectorVersion"))
         case None => Undefined
         case Some(v) => Get(v, "id");
       && server.succeeds(st.log, get)
       && (!server.succeeds(log, create)
           || (Truthy(versionId)
               && !server.succeeds(log + [create], SwitchVersion(ToJsString(server.newId(log, create)), versionId))))
  }

  /** One integration's turn adds exactly that integration to the mismatch
      list when its create or switch is rejected, and leaves the list alone
      otherwise. */
  lemma SyncIntegrationAdds(server: Server, ids: Dict<Value>, destination: Dict<seq<Element>>, st: Matching, x: Element)
    ensures var r := SyncIntegration(server, ids, destination, st, x);
      && (CreateRejected(server, ids, destination, st, x) ==> r.mismatches == st.mismatches + [x] && r.err.None?)
      && (!CreateRejected(server, ids, destination, st, x) ==> r.mismatches == st.mismatches)
  {
    if Lookup(destination, "integrations").Some? {
      var existing := Lookup(destination, "integrations").value;
      var connectorId := Mapped(ids, ToJsString(Get(x, "connectorId")));
      var get := GetConnectorVersions(ToJsString(connectorId));
      if server.succeeds(st.log, get) && FindBy(existing, "key", Get(x, "key")).None?
         && !Truthy(Get(x, "workspaceId")) {
        var st1 := st.(log := st.log + [get]);
        assert SyncIntegration(server, ids, destination, st, x)
            == CreateIntegrationStep(server, st1, connectorId, server.list(st.log, get), x);
      }
    }
  }

  /** The state after the first `k` integrations, seen from after the first. */
  lemma ListPrefixStep(server: Server, ids: Dict<Value>, destination: Dict<seq<Element>>, st: Matching,
                       xs: seq<Element>, k: nat)
    requires st.err.None? && 1 <= k <= |xs|
    ensures SyncIntegrationList(server, ids, destination, st, xs[..k])
         == SyncIntegrationList(server, ids, destination, SyncIntegration(server, ids, destination, st, xs[0]), xs[1..][..k - 1])
  {
    assert xs[..k][0] == xs[0] && xs[..k][1..] == xs[1..][..k - 1];
  }

  /** The mismatch list after a loop that raised nothing holds every
      integration whose turn had its create or switch rejected. */
  lemma {:induction false} MismatchesInclude(server: Server, ids: Dict<Value>, destination: Dict<seq<Element>>,
                                             st: Matching, xs: seq<Element>)
    ensures var r := SyncIntegrationList(server, ids, destination, st, xs);
      r.err.None? ==>
        forall k :: 0 <= k < |xs| && CreateRejected(server, ids, destination, SyncIntegrationList(server, ids, destination, st, xs[..k]), xs[k])
          ==> xs[k] in r.mismatches
    decreases |xs|
  {
    var r := SyncIntegrationList(server, ids, destination, st, xs);
    if st.err.None? && |xs| > 0 && r.err.None? {
      var st' := SyncIntegration(server, ids, destination, st, xs[0]);
      var rest := xs[1..];
      assert r == SyncIntegrationList(server, ids, destination, st', rest);
      MismatchesInclude(server, ids, destination, st', rest);
      forall k | 0 <= k < |xs| && CreateRejected(server, ids, destination, SyncIntegrationList(server, ids, destination, st, xs[..k]), xs[k])
        ensures xs[k] in r.mismatches
      {
        if k == 0 {
          assert xs[..0] == [];
          SyncIntegrationAdds(server, ids, destination, st, xs[0]);
          MismatchesFromSource(server, ids, destination, st', rest);
          assert r.mismatches[..|st'.mismatches|] == st'.mismatches;
          assert r.mismatches[|st.mismatches|] == st'.mismatches[|st.mismatches|] == xs[0];
        } else {
          ListPrefixStep(server, ids, destination, st, xs, k);
          assert rest[k - 1] == xs[k];
        }
      }
    }
  }

  /** A loop that raised nothing and in which no turn had its create or
      switch rejected leaves the mismatch list as it was. */
  lemma {:induction false} MismatchesNone(server: Server, ids: Dict<Value>, destination: Dict<seq<Element>>,
                                          st: Matching, xs: seq<Element>)
    requires forall k :: 0 <= k < |xs| ==> !CreateRejected(server, ids, destination, SyncIntegrationList(server, ids, destination, st, xs[..k]), xs[k])
    ensures SyncIntegrationList(server, ids, destination, st, xs).mismatches == st.mismatches
    decreases |xs|
  {
    if st.err.None? && |xs| > 0 {
      var st' := SyncIntegration(server, ids, destination, st, xs[0]);
      var rest := xs[1..];
      assert xs[..0] == [];
      SyncIntegrationAdds(server, ids, destination, st, xs[0]);
      if st'.err.None? {
        forall k | 0 <= k < |rest|
          ensures !CreateRejected(server, ids, destination, SyncIntegrationList(server, ids, destination, st', rest[..k]), rest[k])
        {
          ListPrefixStep(server, ids, destination, st, xs, k + 1);
          assert rest[k] == xs[k + 1];
        }
        MismatchesNone(server, ids, destination, st', rest);
      } else {
        assert SyncIntegrationList(server, ids, destination, st', rest) == st';
      }
    }
  }

  /** Every recorded mismatch is one of the source integrations, and the
      list only grows. */
  lemma {:induction false} MismatchesFromSource(server: Server, ids: Dict<Value>, destination: Dict<seq<Element>>, st: Matching, integrations: seq<Element>)
    ensures var r := SyncIntegrationList(server, ids, destination, st, integrations);
      |st.mismatches| <= |r.mismatches| && r.mismatches[..|st.mismatches|] == st.mismatches
      && forall i :: |st.mismatches| <= i < |r.mismatches| ==> r.mismatches[i] in integrations
    decreases |integrations|
  {
    if st.err.None? && |integrations| > 0 {
      var st' := SyncIntegration(server, ids, destination, st, integrations[0]);
      SyncIntegrationMismatches(server, ids, destination, st, integrations[0]);
      MismatchesFromSource(server, ids, destination, st', integrations[1..]);
      var r := SyncIntegrationList(server, ids, destination, st', integrations[1..]);
      GrowthFrom(st.mismatches, st'.mismatches, r.mismatches, integrations);
    }
  }

  /** `syncIntegrations`' integration loop. */
  method SyncIntegrationLoop(server: Server, ids: Dict<Value>, destination: Dict<seq<Element>>, st0: Matching, integrations: seq<Element>)
    returns (st: Matching)
    requires st0.err.None?
    ensures st == SyncIntegrationList(server, ids, destination, st0, integrations)
  {
    st := st0;
    var i := 0;
    while i < |integrations|
      invariant 0 <= i <= |integrations|
      invariant st.err.None?
      invariant SyncIntegrationList(server, ids, destination, st, integrations[i..]) == SyncIntegrationList(server, ids, destination, st0, integrations)
    {
      assert integrations[i..][1..] == integrations[i + 1..];
      st := SyncIntegration(server, ids, destination, st, integrations[i]);
      if st.err.Some? {
        return;
      }
      i := i + 1;
    }
  }

  // ---------------------------------------------------------------------
  // The whole of `syncIntegrations`

  /** `syncIntegrations(sourceData, destinationData, iApp)`; it returns no
      warnings, so only the calls and the outcome are kept. */
  function SyncIntegrations(server: Server, env: Env, log: seq<Call>, data: Dict<seq<Element>>, destination: Dict<seq<Element>>): Run
  {
    var issued := Issue(server, log, GetStoreConnectors);
    if issued.Failed() then issued
    else
      var store := server.list(log, GetStoreConnectors);
      match Lookup(data, "connectors")
      case None => Run(issued.log, Some(TypeError("sourceData.connectors is not iterable")))
      case Some(cs) =>
        var p := SyncGroups(server, env, store, Progress(issued.log, [], None), Group([], cs));
        if p.err.Some? then Run(p.log, p.err)
        else
          match Lookup(data, "integrations")
          case None => Run(p.log, Some(TypeError("sourceData.integrations is not iterable")))
          case Some(integrations) =>
            var m := SyncIntegrationList(server, p.ids, destination, Matching(p.log, [], None), integrations);
            if m.err.Some? then Run(m.log, m.err)
            else if |m.mismatches| > 0 then Run(m.log, Some(IntegrationMismatch(m.mismatches)))
            else Run(m.log, None)
  }

  /** The store read comes first; without a `connectors` list the run
      throws right after it; a mismatch error lists only source
      integrations. When that error is raised, and for which integrations,
      is `SyncIntegrationsMismatchExactly` and `SyncIntegrationsMismatchCause`. */
  lemma SyncIntegrationsOutcome(server: Server, env: Env, log: seq<Call>, data: Dict<seq<Element>>, destination: Dict<seq<Element>>)
    ensures var r := SyncIntegrations(server, env, log, data, destination);
      && |r.log| > |log| && r.log[..|log| + 1] == log + [GetStoreConnectors]
      && (server.succeeds(log, GetStoreConnectors) && Lookup(data, "connectors").None? ==>
            r == Run(log + [GetStoreConnectors], Some(TypeError("sourceData.connectors is not iterable"))))
      && (r.err.Some? && r.err.value.IntegrationMismatch? ==>
            Lookup(data, "integrations").Some?
            && |r.err.value.integrations| > 0
            && forall i :: 0 <= i < |r.err.value.integrations| ==> r.err.value.integrations[i] in Lookup(data, "integrations").value)
  {
    SyncIntegrationsStart(server, env, log, data, destination);
    SyncIntegrationsMismatch(server, env, log, data, destination);
  }

  /** The store read comes first, and a missing `connectors` list throws
      right after it. */
  lemma SyncIntegrationsStart(server: Server, env: Env, log: seq<Call>, data: Dict<seq<Element>>, destination: Dict<seq<Element>>)
    ensures var r := SyncIntegrations(server, env, log, data, destination);
      && |r.log| > |log| && r.log[..|log| + 1] == log + [GetStoreConnectors]
      && (server.succeeds(log, GetStoreConnectors) && Lookup(data, "connectors").None? ==>
            r == Run(log + [GetStoreConnectors], Some(TypeError("sourceData.connectors is not iterable"))))
  {
    if server.succeeds(log, GetStoreConnectors) && Lookup(data, "connectors").Some? {
      var store := server.list(log, GetStoreConnectors);
      var st0 := Progress(log + [GetStoreConnectors], [], None);
      var p := SyncGroups(server, env, store, st0, Group([], Lookup(data, "connectors").value));
      SyncGroupsLog(server, env, store, st0, Group([], Lookup(data, "connectors").value));
      if p.err.None? && Lookup(data, "integrations").Some? {
        IntegrationPhaseOutcome(server, p.ids, destination, p.log, Lookup(data, "integrations").value);
      }
      Suffixes(log + [GetStoreConnectors], p.log, SyncIntegrations(server, env, log, data, destination).log);
    }
  }

  /** A mismatch error lists at least one integration, all from the source. */
  lemma SyncIntegrationsMismatch(server: Server, env: Env, log: seq<Call>, data: Dict<seq<Element>>, destination: Dict<seq<Element>>)
    ensures var r := SyncIntegrations(server, env, log, data, destination);
      r.err.Some? && r.err.value.IntegrationMismatch? ==>
        Lookup(data, "integrations").Some?
        && |r.err.value.integrations| > 0
        && forall i :: 0 <= i < |r.err.value.integrations| ==> r.err.value.integrations[i] in Lookup(data, "integrations").value
  {
    if server.succeeds(log, GetStoreConnectors) && Lookup(data, "connectors").Some? {
      var store := server.list(log, GetStoreConnectors);
      var st0 := Progress(log + [GetStoreConnectors], [], None);
      var p := SyncGroups(server, env, store, st0, Group([], Lookup(data, "connectors").value));
      SyncGroupsLog(server, env, store, st0, Group([], Lookup(data, "connectors").value));
      if p.err.None? && Lookup(data, "integrations").Some? {
        IntegrationPhaseOutcome(server, p.ids, destination, p.log, Lookup(data, "integrations").value);
      }
    }
  }

  /** Some integration's turn in the loop from `st` has its create or
      switch rejected. */
  predicate SomeCreateRejected(server: Server, ids: Dict<Value>, destination: Dict<seq<Element>>, st: Matching, xs: seq<Element>)
  {
    exists k :: 0 <= k < |xs| && CreateRejected(server, ids, destination, SyncIntegrationList(server, ids, destination, st, xs[..k]), xs[k])
  }

  /** Once the store read, both snapshot lists and the connector phase are
      in order and the integration loop raises nothing, the run ends with
      the mismatch error, naming every integration whose create or switch
      was rejected, and it ends without error when there was none. */
  lemma SyncIntegrationsMismatchExactly(server: Server, env: Env, log: seq<Call>, data: Dict<seq<Element>>, destination: Dict<seq<Element>>)
    ensures var r := SyncIntegrations(server, env, log, data, destination);
      server.succeeds(log, GetStoreConnectors) && Lookup(data, "connectors").Some? && Lookup(data, "integrations").Some? ==>
        var p := SyncGroups(server, env, server.list(log, GetStoreConnectors), Progress(log + [GetStoreConnectors], [], None),
                            Group([], Lookup(data, "connectors").value));
        var xs := Lookup(data, "integrations").value;
        var m0 := Matching(p.log, [], None);
        var m := SyncIntegrationList(server, p.ids, destination, m0, xs);
        p.err.None? && m.err.None? ==>
          && (forall k :: 0 <= k < |xs| && CreateRejected(server, p.ids, destination, SyncIntegrationList(server, p.ids, destination, m0, xs[..k]), xs[k])
                ==> r.err == Some(IntegrationMismatch(m.mismatches)) && xs[k] in m.mismatches)
          && (!SomeCreateRejected(server, p.ids, destination, m0, xs) ==> r.err.None?)
  {
    if server.succeeds(log, GetStoreConnectors) && Lookup(data, "connectors").Some? && Lookup(data, "integrations").Some? {
      var p := SyncGroups(server, env, server.list(log, GetStoreConnectors), Progress(log + [GetStoreConnectors], [], None),
                          Group([], Lookup(data, "connectors").value));
      var xs := Lookup(data, "integrations").value;
      var m0 := Matching(p.log, [], None);
      if p.err.None? {
        MismatchesInclude(server, p.ids, destination, m0, xs);
        if !SomeCreateRejected(server, p.ids, destination, m0, xs) {
          MismatchesNone(server, p.ids, destination, m0, xs);
        }
      }
    }
  }

  /** A mismatch error means the run got through the store read, both
      snapshot lists, the connector phase and the integration loop, and some
      integration's create or switch was rejected. */
  lemma SyncIntegrationsMismatchCause(server: Server, env: Env, log: seq<Call>, data: Dict<seq<Element>>, destination: Dict<seq<Element>>)
    ensures var r := SyncIntegrations(server, env, log, data, destination);
      r.err.Some? && r.err.value.IntegrationMismatch? ==>
        && server.succeeds(log, GetStoreConnectors) && Lookup(data, "connectors").Some? && Lookup(data, "integrations").Some?
        && var p := SyncGroups(server, env, server.list(log, GetStoreConnectors), Progress(log + [GetStoreConnectors], [], None),
                               Group([], Lookup(data, "connectors").value));
           var m0 := Matching(p.log, [], None);
           && p.err.None?
           && SyncIntegrationList(server, p.ids, destination, m0, Lookup(data, "integrations").value).err.None?
           && SomeCreateRejected(server, p.ids, destination, m0, Lookup(data, "integrations").value)
  {
    if server.succeeds(log, GetStoreConnectors) && Lookup(data, "connectors").Some? {
      var store := server.list(log, GetStoreConnectors);
      var st0 := Progress(log + [GetStoreConnectors], [], None);
      var p := SyncGroups(server, env, store, st0, Group([], Lookup(data, "connectors").value));
      SyncGroupsLog(server, env, store, st0, Group([], Lookup(data, "connectors").value));
      if p.err.None? && Lookup(data, "integrations").Some? {
        var xs := Lookup(data, "integrations").value;
        var m0 := Matching(p.log, [], None);
        IntegrationPhaseOutcome(server, p.ids, destination, p.log, xs);
        if !SomeCreateRejected(server, p.ids, destination, m0, xs) {
          MismatchesNone(server, p.ids, destination, m0, xs);
        }
      }
    }
  }

  /** `syncIntegrations` sends no element call: every call it adds concerns
      connectors or integrations. */
  lemma SyncIntegrationsSendsNoElementCalls(server: Server, env: Env, log: seq<Call>, data: Dict<seq<Element>>, destination: Dict<seq<Element>>)
    ensures Extends(log, SyncIntegrations(server, env, log, data, destination).log)
  {
    var log1 := log + [GetStoreConnectors];
    assert Extends(log, log1);
    if server.succeeds(log, GetStoreConnectors) && Lookup(data, "connectors").Some? {
      var store := server.list(log, GetStoreConnectors);
      var st0 := Progress(log1, [], None);
      var p := SyncGroups(server, env, store, st0, Group([], Lookup(data, "connectors").value));
      SyncGroupsLog(server, env, store, st0, Group([], Lookup(data, "connectors").value));
      ExtendsTrans(log, log1, p.log);
      if p.err.None? && Lookup(data, "integrations").Some? {
        var m0 := Matching(p.log, [], None);
        var integrations := Lookup(data, "integrations").value;
        SyncIntegrationListLog(server, p.ids, destination, m0, integrations);
        ExtendsTrans(log, p.log, SyncIntegrationList(server, p.ids, destination, m0, integrations).log);
      }
    }
  }

  /** The tail of `syncIntegrations` after the connector loops. */
  lemma IntegrationPhaseOutcome(server: Server, ids: Dict<Value>, destination: Dict<seq<Element>>, log: seq<Call>, integrations: seq<Element>)
    ensures var m := SyncIntegrationList(server, ids, destination, Matching(log, [], None), integrations);
      && |log| <= |m.log| && m.log[..|log|] == log
      && (m.err.None? || !m.err.value.IntegrationMismatch?)
      && forall i :: 0 <= i < |m.mismatches| ==> m.mismatches[i] in integrations
  {
    MismatchesFromSource(server, ids, destination, Matching(log, [], None), integrations);
    SyncIntegrationListLog(server, ids, destination, Matching(log, [], None), integrations);
  }

  /** The error, if any, is the one before or one the loops throw, never the mismatch error. */
  predicate NoMismatchRaised(before: Option<Error>, after: Option<Error>)
  {
    after == before || after.None? || !after.value.IntegrationMismatch?
  }

  /** `after` is `before` followed by calls none of which is an element call. */
  predicate Extends(before: seq<Call>, after: seq<Call>)
  {
    |before| <= |after| && after[..|before|] == before
    && forall c :: c in after[|before|..] ==> !IsElementCall(c)
  }

  lemma ExtendsTrans(a: seq<Call>, b: seq<Call>, c: seq<Call>)
    requires Extends(a, b) && Extends(b, c)
    ensures Extends(a, c)
  {
    assert c[|a|..] == b[|a|..] + c[|b|..];
  }

  /** One call that is not an element call. */
  lemma ExtendsByOne(log: seq<Call>, c: Call)
    requires !IsElementCall(c)
    ensures Extends(log, log + [c])
  {
    assert (log + [c])[|log|..] == [c];
  }

  lemma ExtendsRefl(log: seq<Call>)
    ensures Extends(log, log)
  {
    assert log[|log|..] == [];
  }

  lemma SyncVersionLog(server: Server, env: Env, store: seq<Element>, st: Progress, version: string, c: Element)
    ensures var r := SyncVersion(server, env, store, st, version, c);
      Extends(st.log, r.log) && NoMismatchRaised(st.err, r.err)
  {
    var r := SyncVersion(server, env, store, st, version, c);
    ExtendsRefl(st.log);
    if StoreHit(store, c).None? {
      var c' := c - {"baseUri"};
      var st1 := if Truthy(Mapped(st.ids, IdKey(c'))) then st else CreateRecord(server, env, st, c');
      if !Truthy(Mapped(st.ids, IdKey(c'))) {
        ExtendsByOne(st.log, CreateConnector(c'["workspaceId" := env.workspaceId]));
      }
      if st1.err.None? && env.zipExists(ZipPath(c', version)) {
        var v := VersionCall(ToJsString(Mapped(st1.ids, IdKey(c'))), version);
        assert r.log == st1.log + [v];
        ExtendsByOne(st1.log, v);
        ExtendsTrans(st.log, st1.log, r.log);
      }
    }
  }

  lemma {:induction false} SyncVersionsLog(server: Server, env: Env, store: seq<Element>, st: Progress, inner: Dict<Element>, versions: seq<string>)
    ensures var r := SyncVersions(server, env, store, st, inner, versions);
      Extends(st.log, r.log) && NoMismatchRaised(st.err, r.err)
    decreases |versions|
  {
    if st.err.None? && |versions| > 0 {
      var st' := match Lookup(inner, versions[0])
        case None => st
        case Some(c) => SyncVersion(server, env, store, st, versions[0], c);
      if Lookup(inner, versions[0]).Some? {
        SyncVersionLog(server, env, store, st, versions[0], Lookup(inner, versions[0]).value);
      }
      SyncVersionsLog(server, env, store, st', inner, versions[1..]);
      ExtendsTrans(st.log, st'.log, SyncVersions(server, env, store, st', inner, versions[1..]).log);
    } else {
      assert st.log[|st.log|..] == [];
    }
  }

  lemma {:induction false} SyncGroupsLog(server: Server, env: Env, store: seq<Element>, st: Progress, g: Grouped)
    ensures var r := SyncGroups(server, env, store, st, g);
      Extends(st.log, r.log) && NoMismatchRaised(st.err, r.err)
    decreases |g|
  {
    if st.err.None? && |g| > 0 {
      var versions := SortStrings(Keys(g[0].1));
      var st' := SyncVersions(server, env, store, st, g[0].1, versions);
      SyncVersionsLog(server, env, store, st, g[0].1, versions);
      SyncGroupsLog(server, env, store, st', g[1..]);
      ExtendsTrans(st.log, st'.log, SyncGroups(server, env, store, st', g[1..]).log);
    } else {
      assert st.log[|st.log|..] == [];
    }
  }

  lemma CreateIntegrationStepLog(server: Server, st: Matching, connectorId: Value, versions: seq<Element>, integration: Element)
    ensures var r := CreateIntegrationStep(server, st, connectorId, versions, integration);
      Extends(st.log, r.log) && r.err.None?
  {
    var create := CreateIntegration(connectorId, Get(integration, "key"), Get(integration, "name"));
    var log := st.log + [create];
    assert Extends(st.log, log);
    var r := CreateIntegrationStep(server, st, connectorId, versions, integration);
    if r.log != log {
      assert Extends(log, r.log);
      ExtendsTrans(st.log, log, r.log);
    }
  }

  /** The error after one integration is never the mismatch error. */
  lemma SyncIntegrationRaises(server: Server, ids: Dict<Value>, destination: Dict<seq<Element>>, st: Matching, integration: Element)
    requires st.err.None?
    ensures NoMismatchRaised(st.err, SyncIntegration(server, ids, destination, st, integration).err)
  {
  }

  lemma SyncIntegrationLog(server: Server, ids: Dict<Value>, destination: Dict<seq<Element>>, st: Matching, integration: Element)
    requires st.err.None?
    ensures var r := SyncIntegration(server, ids, destination, st, integration);
      Extends(st.log, r.log) && NoMismatchRaised(st.err, r.err)
  {
    SyncIntegrationRaises(server, ids, destination, st, integration);
    ExtendsRefl(st.log);
    if Lookup(destination, "integrations").Some? {
      var connectorId := Mapped(ids, ToJsString(Get(integration, "connectorId")));
      var get := GetConnectorVersions(ToJsString(connectorId));
      var st1 := st.(log := st.log + [get]);
      ExtendsByOne(st.log, get);
      if server.succeeds(st.log, get) {
        var r := SyncIntegration(server, ids, destination, st, integration);
        var versions := server.list(st.log, get);
        var matched := FindBy(Lookup(destination, "integrations").value, "key", Get(integration, "key"));
        var wanted := Get(integration, "connectorVersion");
        if matched.None? {
          if !Truthy(Get(integration, "workspaceId")) {
            CreateIntegrationStepLog(server, st1, connectorId, versions, integration);
            assert r == CreateIntegrationStep(server, st1, connectorId, versions, integration);
          } else {
            ExtendsRefl(st1.log);
          }
        } else if Truthy(wanted) && !LooseEq(wanted, Get(matched.value, "connectorVersion"))
                  && VersionWith(versions, wanted).Some? {
          var sw := SwitchVersion(ToJsString(Get(matched.value, "id")), Get(VersionWith(versions, wanted).value, "id"));
          assert r.log == st1.log + [sw];
          ExtendsByOne(st1.log, sw);
        } else {
          assert r.log == st1.log;
          ExtendsRefl(st1.log);
        }
        ExtendsTrans(st.log, st1.log, r.log);
      }
    }
  }

  lemma {:induction false} SyncIntegrationListLog(server: Server, ids: Dict<Value>, destination: Dict<seq<Element>>, st: Matching, integrations: seq<Element>)
    ensures var r := SyncIntegrationList(server, ids, destination, st, integrations);
      Extends(st.log, r.log) && NoMismatchRaised(st.err, r.err)
    decreases |integrations|
  {
    if st.err.None? && |integrations| > 0 {
      var st' := SyncIntegration(server, ids, destination, st, integrations[0]);
      SyncIntegrationLog(server, ids, destination, st, integrations[0]);
      SyncIntegrationListLog(server, ids, destination, st', integrations[1..]);
      ExtendsTrans(st.log, st'.log, SyncIntegrationList(server, ids, destination, st', integrations[1..]).log);
    } else {
      assert st.log[|st.log|..] == [];
    }
  }

  /** The imperative `syncIntegrations`: store read, grouping, connector
      loops, integration loop, then the mismatch check. */
  method SyncIntegrationsRun(server: Server, env: Env, log0: seq<Call>, data: Dict<seq<Element>>, destination: Dict<seq<Element>>)
    returns (r: Run)
    ensures r == SyncIntegrations(server, env, log0, data, destination)
  {
    var ok := server.succeeds(log0, GetStoreConnectors);
    var store := server.list(log0, GetStoreConnectors);
    var log := log0 + [GetStoreConnectors];
    if !ok {
      return Run(log, Some(Rejected(GetStoreConnectors)));
    }
    var connectors := Lookup(data, "connectors");
    if connectors.None? {
      return Run(log, Some(TypeError("sourceData.connectors is not iterable")));
    }
    var grouped := GroupConnectors(connectors.value);
    var p := SyncConnectors(server, env, store, Progress(log, [], None), grouped);
    if p.err.Some? {
      return Run(p.log, p.err);
    }
    var integrations := Lookup(data, "integrations");
    if integrations.None? {
      return Run(p.log, Some(TypeError("sourceData.integrations is not iterable")));
    }
    var m := SyncIntegrationLoop(server, p.ids, destination, Matching(p.log, [], None), integrations.value);
    if m.err.Some? {
      return Run(m.log, m.err);
    }
    if |m.mismatches| > 0 {
      return Run(m.log, Some(IntegrationMismatch(m.mismatches)));
    }
    r := Run(m.log, None);
  }
}

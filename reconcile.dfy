/** The element reconciler of `importPackage`: matching a snapshot element
    against the destination inventory (`matchElement`), the customization
    test (`elementIsCustomized`) and the per-element decision and call
    sequence of `syncElements`. */
module Reconcile {
  import opened Js
  import opened Catalog
  import opened Remote
  import opened Workspace

  /** `elementIsCustomized`: bound to an integration and flagged customized
      under either spelling.  A universal element is never customized. */
  predicate IsCustomized(e: Element)
    ensures IsCustomized(e) ==> Truthy(Get(e, "integrationKey"))
  {
    Truthy(Get(e, "integrationKey")) && (Truthy(Get(e, "customized")) || Truthy(Get(e, "isCustomized")))
  }

  /** The identity used for matching: `key` and `integrationKey`, compared with `==`. */
  predicate SameIdentity(d: Element, e: Element)
  {
    LooseEq(Get(d, "key"), Get(e, "key")) && LooseEq(Get(d, "integrationKey"), Get(e, "integrationKey"))
  }

  /** `items.filter(...)` of `matchElement`. */
  function Matches(items: seq<Element>, e: Element): (r: seq<Element>)
    ensures |r| <= |items|
  {
    if |items| == 0 then []
    else (if SameIdentity(items[0], e) then [items[0]] else []) + Matches(items[1..], e)
  }

  lemma {:induction false} MatchesNone(items: seq<Element>, e: Element)
    ensures |Matches(items, e)| == 0 <==> forall i :: 0 <= i < |items| ==> !SameIdentity(items[i], e)
  {
    if |items| > 0 {
      MatchesNone(items[1..], e);
      assert forall i :: 1 <= i < |items| ==> items[i] == items[1..][i - 1];
    }
  }

  lemma {:induction false} MatchesMany(items: seq<Element>, e: Element)
    ensures |Matches(items, e)| >= 2 <==>
      exists i, j :: 0 <= i < j < |items| && SameIdentity(items[i], e) && SameIdentity(items[j], e)
  {
    if |items| > 0 {
      MatchesMany(items[1..], e);
      MatchesNone(items[1..], e);
      assert forall i :: 1 <= i < |items| ==> items[i] == items[1..][i - 1];
      if |Matches(items, e)| >= 2 && SameIdentity(items[0], e) {
        assert |Matches(items[1..], e)| >= 1;
        var j :| 0 <= j < |items[1..]| && SameIdentity(items[1..][j], e);
        assert SameIdentity(items[j + 1], e);
      }
      if i, j :| 0 <= i < j < |items| && SameIdentity(items[i], e) && SameIdentity(items[j], e) {
        if i == 0 {
          assert SameIdentity(items[1..][j - 1], e);
        } else {
          assert SameIdentity(items[1..][i - 1], e) && SameIdentity(items[1..][j - 1], e);
        }
      }
    }
  }

  lemma {:induction false} MatchesOne(items: seq<Element>, e: Element)
    requires |Matches(items, e)| == 1
    ensures exists i :: 0 <= i < |items| && items[i] == Matches(items, e)[0] && SameIdentity(items[i], e)
  {
    if SameIdentity(items[0], e) {
      assert Matches(items, e)[0] == items[0];
    } else {
      MatchesOne(items[1..], e);
      var i :| 0 <= i < |items[1..]| && items[1..][i] == Matches(items[1..], e)[0] && SameIdentity(items[1..][i], e);
      assert items[i + 1] == items[1..][i];
    }
  }

  datatype Matched = NoMatch | Match(destination: Element) | MatchFailed(error: Error)

  /** `matchElement`: the destination element of this type with the same
      `key` and `integrationKey`, if there is exactly one; none if there is
      none; more than one throws.  A type missing from the inventory throws
      too (`undefined.length`). */
  function MatchElement(e: Element, inventory: Dict<seq<Element>>, t: string): (r: Matched)
    ensures Lookup(inventory, t).None? ==> r.MatchFailed?
  {
    match Lookup(inventory, t)
    case None => MatchFailed(TypeError("workspaceData[elementType] is undefined"))
    case Some(items) =>
      var ms := Matches(items, e);
      if |ms| > 1 then MatchFailed(Duplicate(t, Get(e, "key"), Get(e, "integrationKey")))
      else if |ms| == 1 then Match(ms[0])
      else NoMatch
  }

  /** `matchElement` against a present type: it throws exactly when two
      inventory elements share the identity, finds nothing exactly when none
      does, and otherwise returns the one that does. */
  lemma MatchElementMeaning(e: Element, inventory: Dict<seq<Element>>, t: string)
    requires Lookup(inventory, t).Some?
    ensures var r := MatchElement(e, inventory, t);
      var items := Lookup(inventory, t).value;
      && (r.MatchFailed? <==>
            exists i, j :: 0 <= i < j < |items| && SameIdentity(items[i], e) && SameIdentity(items[j], e))
      && (r.NoMatch? <==> forall i :: 0 <= i < |items| ==> !SameIdentity(items[i], e))
      && (r.Match? ==> exists i :: 0 <= i < |items| && items[i] == r.destination && SameIdentity(items[i], e))
  {
    var items := Lookup(inventory, t).value;
    MatchesNone(items, e);
    MatchesMany(items, e);
    if |Matches(items, e)| == 1 {
      MatchesOne(items, e);
    }
  }

  /** What `syncElements` does with one element. */
  datatype Plan = Update | ResetToParent | Corrupted | ApplyParent | CreateFresh

  /** The branch structure of `syncElements`.  The "Corrupted" branch of a
      matched element is dead: its two guards already cover every element. */
  function Decide(matched: bool, e: Element): (p: Plan)
    ensures p != Corrupted
    ensures matched ==> (p == Update <==> !HasParent(e) || IsCustomized(e))
    ensures matched ==> (p == ResetToParent <==> HasParent(e) && !IsCustomized(e))
    ensures !matched ==> (p == ApplyParent <==> HasParent(e))
    ensures !matched ==> (p == CreateFresh <==> !HasParent(e))
  {
    if matched then
      if !HasParent(e) || (IsCustomized(e) && HasParent(e)) then Update
      else if HasParent(e) then ResetToParent
      else Corrupted
    else if HasParent(e) then ApplyParent
    else CreateFresh
  }

  /** `workspaceData.integrations.find((item) => item.key == ik).id`;
      `None` stands for the TypeError when either lookup comes back empty. */
  function IntegrationIdFor(inventory: Dict<seq<Element>>, ik: Value): (r: Option<Value>)
    ensures r.Some? <==> Lookup(inventory, "integrations").Some?
                         && FindBy(Lookup(inventory, "integrations").value, "key", ik).Some?
  {
    match Lookup(inventory, "integrations")
    case None => None
    case Some(integrations) =>
      match FindBy(integrations, "key", ik)
      case None => None
      case Some(integration) => Some(Get(integration, "id"))
  }

  const NoIntegration := TypeError("cannot read 'id' of undefined")

  /** The apply fallback chain for a derived element: apply the universal
      parent; if that rejects, put by key; if that rejects too, create with
      the resolved integration id. */
  function ApplyChain(server: Server, log: seq<Call>, t: string, inventory: Dict<seq<Element>>, e: Element): Run
  {
    var key, ik := Get(e, "key"), Get(e, "integrationKey");
    var apply := Apply(t, key, [ik]);
    var put := PutByKey(t, key, ik, e);
    if server.succeeds(log, apply) then Run(log + [apply], None)
    else if server.succeeds(log + [apply], put) then Run(log + [apply, put], None)
    else
      match IntegrationIdFor(inventory, ik)
      case None => Run(log + [apply, put], Some(NoIntegration))
      case Some(id) => Issue(server, log + [apply, put], Create(t, e["integrationId" := id]))
  }

  /** One element of one type, given the run so far (which has not failed). */
  function SyncElement(server: Server, log: seq<Call>, t: string, inventory: Dict<seq<Element>>, source: Element): Run
  {
    var e := source - {"integrationId"};
    var key, ik := Get(e, "key"), Get(e, "integrationKey");
    match MatchElement(e, inventory, t)
    case MatchFailed(error) => Run(log, Some(error))
    case Match(d) =>
      var plan := Decide(true, e);
      if plan == Update then Issue(server, log, Put(t, Get(d, "id"), e))
      else if plan == ResetToParent then Issue(server, log, Reset(t, Get(d, "id")))
      else Run(log, None)
    case NoMatch =>
      if Decide(false, e) == ApplyParent then
        var r := ApplyChain(server, log, t, inventory, e);
        if r.Failed() || !IsCustomized(e) then r
        else Issue(server, r.log, PutByKey(t, key, ik, e))
      else if Truthy(ik) then
        match IntegrationIdFor(inventory, ik)
        case None => Run(log, Some(NoIntegration))
        case Some(id) => Issue(server, log, Create(t, (e - {"integration"})["integrationId" := id]))
      else Issue(server, log, Create(t, e))
  }

  /** The elements of one type, in order, stopping at the first error. */
  function SyncList(server: Server, st: Run, t: string, inventory: Dict<seq<Element>>, es: seq<Element>): Run
    decreases |es|
  {
    if st.Failed() || |es| == 0 then st
    else SyncList(server, SyncElement(server, st.log, t, inventory, es[0]), t, inventory, es[1..])
  }

  /** One type's turn: an unknown type throws, a non-exportable one is skipped. */
  function SyncType(server: Server, st: Run, inventory: Dict<seq<Element>>, batch: (string, seq<Element>)): Run
  {
    if st.Failed() then st
    else
      match EntryFor(batch.0)
      case None => Run(st.log, Some(TypeError("INTEGRATION_ELEMENTS[elementType] is undefined")))
      case Some(entry) =>
        if !entry.exportable then st else SyncList(server, st, batch.0, inventory, batch.1)
  }

  /** `syncElements(data, workspaceData, iApp)`: every type of `data` in key order. */
  function SyncBatches(server: Server, st: Run, inventory: Dict<seq<Element>>, batches: Dict<seq<Element>>): Run
    decreases |batches|
  {
    if st.Failed() || |batches| == 0 then st
    else SyncBatches(server, SyncType(server, st, inventory, batches[0]), inventory, batches[1..])
  }

  // ---------------------------------------------------------------------
  // The decision table, row by row

  /** A matched element gets exactly one call on the destination id: a put
      when it has no parent or is customized, a reset otherwise; a rejected
      put or reset becomes the run's error. */
  lemma SyncMatched(server: Server, log: seq<Call>, t: string, inventory: Dict<seq<Element>>, source: Element)
    requires MatchElement(source - {"integrationId"}, inventory, t).Match?
    ensures var e := source - {"integrationId"};
      var id := Get(MatchElement(e, inventory, t).destination, "id");
      var call := if !HasParent(e) || IsCustomized(e) then Put(t, id, e) else Reset(t, id);
      SyncElement(server, log, t, inventory, source) == Issue(server, log, call)
  {
  }

  /** An unmatched derived element is applied first; a customized one is then
      put by key with its full payload, and nothing follows for one that is
      not customized. */
  lemma SyncDerived(server: Server, log: seq<Call>, t: string, inventory: Dict<seq<Element>>, source: Element)
    requires MatchElement(source - {"integrationId"}, inventory, t).NoMatch?
    requires HasParent(source - {"integrationId"})
    ensures var e := source - {"integrationId"};
      var key, ik := Get(e, "key"), Get(e, "integrationKey");
      var r := SyncElement(server, log, t, inventory, source);
      && |log| < |r.log| && r.log[..|log| + 1] == log + [Apply(t, key, [ik])]
      && (IsCustomized(e) && !r.Failed() ==> r.log[|r.log| - 1] == PutByKey(t, key, ik, e))
      && (server.succeeds(log, Apply(t, key, [ik])) ==>
            r.log == log + [Apply(t, key, [ik])] + (if IsCustomized(e) then [PutByKey(t, key, ik, e)] else []))
      && (!IsCustomized(e) ==> r == ApplyChain(server, log, t, inventory, e))
  {
    var e := source - {"integrationId"};
    var key, ik := Get(e, "key"), Get(e, "integrationKey");
    var chain := ApplyChain(server, log, t, inventory, e);
    assert chain.log[..|log| + 1] == log + [Apply(t, key, [ik])];
  }

  /** An unmatched element without a parent gets one create; when it names an
      integration, `integration` is dropped and `integrationId` is set to the
      destination id of the integration with that key, and an unknown key
      throws before anything is sent. */
  lemma SyncFresh(server: Server, log: seq<Call>, t: string, inventory: Dict<seq<Element>>, source: Element)
    requires MatchElement(source - {"integrationId"}, inventory, t).NoMatch?
    requires !HasParent(source - {"integrationId"})
    ensures var e := source - {"integrationId"};
      var ik := Get(e, "integrationKey");
      var r := SyncElement(server, log, t, inventory, source);
      && (!Truthy(ik) ==> r == Issue(server, log, Create(t, e)))
      && (Truthy(ik) && IntegrationIdFor(inventory, ik).None? ==> r == Run(log, Some(NoIntegration)))
      && (Truthy(ik) && IntegrationIdFor(inventory, ik).Some? ==>
            var integration := FindBy(Lookup(inventory, "integrations").value, "key", ik).value;
            && LooseEq(Get(integration, "key"), ik)
            && r == Issue(server, log, Create(t, (e - {"integration"})["integrationId" := Get(integration, "id")])))
  {
  }

  /** A type the catalog marks as not exportable produces no calls. */
  lemma SkipNonExportable(server: Server, st: Run, inventory: Dict<seq<Element>>, batch: (string, seq<Element>))
    requires EntryFor(batch.0).Some? && !EntryFor(batch.0).value.exportable
    ensures SyncType(server, st, inventory, batch) == st
  {
  }

  // ---------------------------------------------------------------------
  // What a batch run can touch

  /** Calls on element types only, each of a type that has at least one
      element in `batches` and whose catalog entry is exportable. */
  predicate CallsFrom(calls: seq<Call>, batches: Dict<seq<Element>>)
  {
    forall c :: c in calls ==>
      IsElementCall(c) && EntryFor(c.typ).Some? && EntryFor(c.typ).value.exportable
      && exists i :: 0 <= i < |batches| && batches[i].0 == c.typ && |batches[i].1| > 0
  }

  /** `after` keeps `before` and adds only element calls on type `t`. */
  predicate AppendsOfType(before: seq<Call>, after: seq<Call>, t: string)
  {
    |before| <= |after| && after[..|before|] == before
    && forall c :: c in after[|before|..] ==> IsElementCall(c) && c.typ == t
  }

  lemma AppendsOfTypeTrans(a: seq<Call>, b: seq<Call>, c: seq<Call>, t: string)
    requires AppendsOfType(a, b, t) && AppendsOfType(b, c, t)
    ensures AppendsOfType(a, c, t)
  {
    Suffixes(a, b, c);
  }

  lemma IssueOfType(server: Server, log: seq<Call>, c: Call, t: string)
    requires IsElementCall(c) && c.typ == t
    ensures AppendsOfType(log, Issue(server, log, c).log, t)
  {
    assert (log + [c])[|log|..] == [c];
  }

  lemma ApplyChainCalls(server: Server, log: seq<Call>, t: string, inventory: Dict<seq<Element>>, e: Element)
    ensures AppendsOfType(log, ApplyChain(server, log, t, inventory, e).log, t)
  {
    var key, ik := Get(e, "key"), Get(e, "integrationKey");
    var apply := Apply(t, key, [ik]);
    var put := PutByKey(t, key, ik, e);
    IssueOfType(server, log, apply, t);
    IssueOfType(server, log + [apply], put, t);
    AppendsOfTypeTrans(log, log + [apply], log + [apply, put], t);
    assert log + [apply] + [put] == log + [apply, put];
    if IntegrationIdFor(inventory, ik).Some? {
      var id := IntegrationIdFor(inventory, ik).value;
      IssueOfType(server, log + [apply, put], Create(t, e["integrationId" := id]), t);
      AppendsOfTypeTrans(log, log + [apply, put], log + [apply, put, Create(t, e["integrationId" := id])], t);
    }
  }

  lemma SyncElementCalls(server: Server, log: seq<Call>, t: string, inventory: Dict<seq<Element>>, source: Element)
    ensures AppendsOfType(log, SyncElement(server, log, t, inventory, source).log, t)
  {
    var e := source - {"integrationId"};
    var key, ik := Get(e, "key"), Get(e, "integrationKey");
    var r := SyncElement(server, log, t, inventory, source);
    match MatchElement(e, inventory, t)
    case MatchFailed(_) =>
      assert r.log == log && log[|log|..] == [];
    case Match(d) =>
      if Decide(true, e) == Update {
        IssueOfType(server, log, Put(t, Get(d, "id"), e), t);
      } else {
        IssueOfType(server, log, Reset(t, Get(d, "id")), t);
      }
    case NoMatch =>
      if Decide(false, e) == ApplyParent {
        var chain := ApplyChain(server, log, t, inventory, e);
        ApplyChainCalls(server, log, t, inventory, e);
        if !chain.Failed() && IsCustomized(e) {
          IssueOfType(server, chain.log, PutByKey(t, key, ik, e), t);
          AppendsOfTypeTrans(log, chain.log, r.log, t);
        }
      } else if Truthy(ik) {
        if IntegrationIdFor(inventory, ik).Some? {
          IssueOfType(server, log, Create(t, (e - {"integration"})["integrationId" := IntegrationIdFor(inventory, ik).value]), t);
        } else {
          assert r.log == log && log[|log|..] == [];
        }
      } else {
        IssueOfType(server, log, Create(t, e), t);
      }
  }

  lemma {:induction false} SyncListCalls(server: Server, st: Run, t: string, inventory: Dict<seq<Element>>, es: seq<Element>)
    ensures var r := SyncList(server, st, t, inventory, es);
      AppendsOfType(st.log, r.log, t) && (|es| == 0 ==> r == st)
    decreases |es|
  {
    var r := SyncList(server, st, t, inventory, es);
    if !st.Failed() && |es| > 0 {
      var st' := SyncElement(server, st.log, t, inventory, es[0]);
      SyncElementCalls(server, st.log, t, inventory, es[0]);
      SyncListCalls(server, st', t, inventory, es[1..]);
      assert r == SyncList(server, st', t, inventory, es[1..]);
      AppendsOfTypeTrans(st.log, st'.log, r.log, t);
    } else {
      assert r == st && st.log[|st.log|..] == [];
    }
  }

  lemma SyncTypeCalls(server: Server, st: Run, inventory: Dict<seq<Element>>, b: (string, seq<Element>))
    ensures var r := SyncType(server, st, inventory, b);
      |st.log| <= |r.log| && r.log[..|st.log|] == st.log
      && forall c :: c in r.log[|st.log|..] ==>
           IsElementCall(c) && c.typ == b.0 && EntryFor(b.0).Some? && EntryFor(b.0).value.exportable && |b.1| > 0
  {
    var r := SyncType(server, st, inventory, b);
    if !st.Failed() && EntryFor(b.0).Some? && EntryFor(b.0).value.exportable {
      SyncListCalls(server, st, b.0, inventory, b.1);
    } else {
      assert r.log == st.log;
    }
  }

  lemma CallsFromCons(head: seq<Call>, tail: seq<Call>, batches: Dict<seq<Element>>)
    requires |batches| > 0
    requires forall c :: c in head ==>
      IsElementCall(c) && c.typ == batches[0].0 && EntryFor(c.typ).Some? && EntryFor(c.typ).value.exportable
      && |batches[0].1| > 0
    requires CallsFrom(tail, batches[1..])
    ensures CallsFrom(head + tail, batches)
  {
    forall c | c in head + tail
      ensures exists i :: 0 <= i < |batches| && batches[i].0 == c.typ && |batches[i].1| > 0
    {
      if c !in head {
        var i :| 0 <= i < |batches[1..]| && batches[1..][i].0 == c.typ && |batches[1..][i].1| > 0;
        assert batches[i + 1] == batches[1..][i];
      }
    }
  }

  /** Everything `syncElements` sends concerns the types of its own batches
      that have elements and are exportable; the earlier log is kept. */
  lemma {:induction false} SyncBatchesCalls(server: Server, st: Run, inventory: Dict<seq<Element>>, batches: Dict<seq<Element>>)
    ensures var r := SyncBatches(server, st, inventory, batches);
      |st.log| <= |r.log| && r.log[..|st.log|] == st.log && CallsFrom(r.log[|st.log|..], batches)
    decreases |batches|
  {
    var r := SyncBatches(server, st, inventory, batches);
    if !st.Failed() && |batches| > 0 {
      var st' := SyncType(server, st, inventory, batches[0]);
      SyncTypeCalls(server, st, inventory, batches[0]);
      SyncBatchesCalls(server, st', inventory, batches[1..]);
      assert r == SyncBatches(server, st', inventory, batches[1..]);
      Suffixes(st.log, st'.log, r.log);
      CallsFromCons(st'.log[|st.log|..], r.log[|st'.log|..], batches);
    } else {
      assert r.log[|st.log|..] == [];
    }
  }

  // ---------------------------------------------------------------------
  // The imperative `syncElements`

  /** One pass of the inner loop body: clean, match, then issue the calls
      one `await` at a time. */
  method SyncOneElement(server: Server, log0: seq<Call>, t: string, inventory: Dict<seq<Element>>, source: Element)
    returns (r: Run)
    ensures r == SyncElement(server, log0, t, inventory, source)
  {
    var element := source - {"integrationId"};
    var key, ik := Get(element, "key"), Get(element, "integrationKey");
    var log := log0;
    var matched := MatchElement(element, inventory, t);
    if matched.MatchFailed? {
      return Run(log, Some(matched.error));
    }
    if matched.Match? {
      var id := Get(matched.destination, "id");
      if !HasParent(element) || (IsCustomized(element) && HasParent(element)) {
        r := Issue(server, log, Put(t, id, element));
      } else if HasParent(element) {
        r := Issue(server, log, Reset(t, id));
      } else {
        r := Run(log, None);
      }
      return;
    }
    if HasParent(element) {
      var apply := Apply(t, key, [ik]);
      var put := PutByKey(t, key, ik, element);
      var ok := server.succeeds(log, apply);
      log := log + [apply];
      if !ok {
        ok := server.succeeds(log, put);
        log := log + [put];
        assert log == log0 + [apply, put];
        if !ok {
          var id := IntegrationIdFor(inventory, ik);
          if id.None? {
            return Run(log, Some(NoIntegration));
          }
          var create := Create(t, element["integrationId" := id.value]);
          ok := server.succeeds(log, create);
          log := log + [create];
          if !ok {
            return Run(log, Some(Rejected(create)));
          }
        }
      }
      if IsCustomized(element) {
        r := Issue(server, log, put);
      } else {
        r := Run(log, None);
      }
    } else {
      if Truthy(ik) {
        element := element - {"integration"};
        var id := IntegrationIdFor(inventory, ik);
        if id.None? {
          return Run(log, Some(NoIntegration));
        }
        element := element["integrationId" := id.value];
      }
      r := Issue(server, log, Create(t, element));
    }
  }

  /** `syncElements`: the outer loop over types, the inner loop over each
      type's elements; the first error propagates out of both. */
  method SyncElements(server: Server, st0: Run, inventory: Dict<seq<Element>>, data: Dict<seq<Element>>)
    returns (r: Run)
    requires !st0.Failed()
    ensures r == SyncBatches(server, st0, inventory, data)
  {
    var log := st0.log;
    var i := 0;
    while i < |data|
      invariant 0 <= i <= |data|
      invariant SyncBatches(server, Run(log, None), inventory, data[i..]) == SyncBatches(server, st0, inventory, data)
    {
      assert data[i..][1..] == data[i + 1..];
      var step := SyncTypeRun(server, log, inventory, data[i]);
      if step.Failed() {
        return step;
      }
      log := step.log;
      i := i + 1;
    }
    r := Run(log, None);
  }

  /** One type's turn of `syncElements`. */
  method SyncTypeRun(server: Server, log: seq<Call>, inventory: Dict<seq<Element>>, batch: (string, seq<Element>))
    returns (r: Run)
    ensures r == SyncType(server, Run(log, None), inventory, batch)
  {
    var entry := EntryFor(batch.0);
    if entry.None? {
      return Run(log, Some(TypeError("INTEGRATION_ELEMENTS[elementType] is undefined")));
    }
    if entry.value.exportable {
      r := SyncElementList(server, log, batch.0, inventory, batch.1);
    } else {
      r := Run(log, None);
    }
  }

  /** The inner loop of `syncElements` over one type's elements. */
  method SyncElementList(server: Server, log0: seq<Call>, t: string, inventory: Dict<seq<Element>>, es: seq<Element>)
    returns (r: Run)
    ensures r == SyncList(server, Run(log0, None), t, inventory, es)
  {
    var log := log0;
    var j := 0;
    while j < |es|
      invariant 0 <= j <= |es|
      invariant SyncList(server, Run(log, None), t, inventory, es[j..]) == SyncList(server, Run(log0, None), t, inventory, es)
    {
      assert es[j..][1..] == es[j + 1..];
      var step := SyncOneElement(server, log, t, inventory, es[j]);
      if step.Failed() {
        return step;
      }
      log := step.log;
      j := j + 1;
    }
    r := Run(log, None);
  }
}

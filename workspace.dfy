/** Workspace data helpers: parent detection, the universal /
    integration-specific split of a snapshot, and the fetch-and-cleanup of a
    workspace's elements. */
module Workspace {
  import opened Js
  import opened Text
  import opened Catalog
  import opened Remote

  // ---------------------------------------------------------------------
  // Parent detection

  /** A property name that marks a derived instance: one matching
      `/universal.*Id/` or containing "parentId". */
  predicate IsParentKey(k: string)
  {
    MatchesUniversalId(k) || Contains(k, "parentId")
  }

  /** `hasParent`: some property NAME of the element marks it as derived from
      a universal parent.  Only the key set is consulted, never a value. */
  predicate HasParent(e: Element)
  {
    exists k :: k in e.Keys && IsParentKey(k)
  }

  /** `hasParent` in terms of the two patterns it tests: a key in which
      "universal" is followed on the same line by "Id", or a key containing
      "parentId". */
  lemma HasParentMeaning(e: Element)
    ensures HasParent(e) <==>
      exists k :: k in e.Keys &&
        ((exists i, j :: 0 <= i <= j <= |k| && UniversalIdMatch(k, i, j))
         || (exists i :: 0 <= i <= |k| && OccursAt(k, "parentId", i)))
  {
  }

  // ---------------------------------------------------------------------
  // Splitting a snapshot into universal and integration-specific buckets

  /** `element.integrationKey || element.integration || element.integrationId`. */
  predicate IsMarked(e: Element)
  {
    Truthy(Get(e, "integrationKey")) || Truthy(Get(e, "integration")) || Truthy(Get(e, "integrationId"))
  }

  /** The elements of `es` whose marking is `marked`, in their input order. */
  function Partition(es: seq<Element>, marked: bool): (r: seq<Element>)
    ensures forall e :: e in r <==> e in es && IsMarked(e) == marked
    ensures |r| <= |es|
  {
    if |es| == 0 then []
    else
      var rest := Partition(es[1..], marked);
      assert forall e :: e in es <==> e == es[0] || e in es[1..];
      if IsMarked(es[0]) == marked then [es[0]] + rest else rest
  }

  /** Filtering commutes with concatenation: each bucket keeps the relative
      order of the input. */
  lemma {:induction false} PartitionAppend(a: seq<Element>, b: seq<Element>, marked: bool)
    ensures Partition(a + b, marked) == Partition(a, marked) + Partition(b, marked)
  {
    if |a| > 0 {
      assert (a + b)[1..] == a[1..] + b;
      PartitionAppend(a[1..], b, marked);
    } else {
      assert a + b == b;
    }
  }

  /** The two buckets together hold every input element exactly as often as
      the input does. */
  lemma {:induction false} PartitionMultiset(es: seq<Element>)
    ensures multiset(Partition(es, false)) + multiset(Partition(es, true)) == multiset(es)
  {
    if |es| > 0 {
      PartitionMultiset(es[1..]);
      assert es == [es[0]] + es[1..];
    }
  }

  /** The buckets one type's elements go to: universal types keep everything
      universal; for integration-specific types the marking decides. */
  function SplitType(entry: Entry, es: seq<Element>): (seq<Element>, seq<Element>)
  {
    if entry.integrationSpecific then (Partition(es, false), Partition(es, true)) else (es, [])
  }

  datatype Split =
    | Split(universal: Dict<seq<Element>>, specific: Dict<seq<Element>>)
    | SplitFailed(error: Error)

  predicate UnknownTypeIn(data: Dict<seq<Element>>)
  {
    exists i :: 0 <= i < |data| && EntryFor(data[i].0).None?
  }

  /** `splitWorkspaceData`: both results carry every input type, in input
      order, initialised to a list; each type's elements are divided between
      the two without loss.  A type the catalog does not know throws. */
  function SplitWorkspace(data: Dict<seq<Element>>): (r: Split)
    ensures r.SplitFailed? <==> UnknownTypeIn(data)
    ensures r.Split? ==> Keys(r.universal) == Keys(data) && Keys(r.specific) == Keys(data)
    ensures r.Split? ==> forall i :: 0 <= i < |data| ==>
      multiset(r.universal[i].1) + multiset(r.specific[i].1) == multiset(data[i].1)
  {
    if UnknownTypeIn(data) then SplitFailed(TypeError("INTEGRATION_ELEMENTS[elementType] is undefined"))
    else
      var r := Split(
        seq(|data|, i requires 0 <= i < |data| => (data[i].0, SplitType(EntryFor(data[i].0).value, data[i].1).0)),
        seq(|data|, i requires 0 <= i < |data| => (data[i].0, SplitType(EntryFor(data[i].0).value, data[i].1).1)));
      forall i | 0 <= i < |data| ensures multiset(r.universal[i].1) + multiset(r.specific[i].1) == multiset(data[i].1) {
        PartitionMultiset(data[i].1);
      }
      r
  }

  /** The split succeeds whenever every type is a catalog type. */
  lemma KnownTypesSplit(data: Dict<seq<Element>>)
    requires forall i :: 0 <= i < |data| ==> data[i].0 in TypeNames
    ensures SplitWorkspace(data).Split?
  {
    forall i | 0 <= i < |data| ensures EntryFor(data[i].0).Some? {
      EntryForMeaning(data[i].0);
    }
  }

  /** Dropping one directory name from a snapshot whose other names are
      catalog types leaves a snapshot that splits. */
  lemma KnownTypesSplitWithout(loaded: Dict<seq<Element>>, k: string)
    requires forall i :: 0 <= i < |loaded| && loaded[i].0 != k ==> loaded[i].0 in TypeNames
    ensures SplitWorkspace(Remove(loaded, k)).Split?
  {
    var d := Remove(loaded, k);
    forall i | 0 <= i < |d| ensures d[i].0 in TypeNames {
      var j :| 0 <= j < |loaded| && loaded[j] == d[i];
    }
    KnownTypesSplit(d);
  }

  /** For a type that is not integration-specific, every element stays
      universal in input order and the integration-specific list is empty. */
  lemma SplitUniversalType(data: Dict<seq<Element>>, i: nat)
    requires i < |data| && SplitWorkspace(data).Split?
    requires !EntryFor(data[i].0).value.integrationSpecific
    ensures SplitWorkspace(data).universal[i] == data[i]
    ensures SplitWorkspace(data).specific[i] == (data[i].0, [])
  {
  }

  /** For an integration-specific type an element goes to the
      integration-specific bucket iff it is marked, and to the universal
      bucket otherwise. */
  lemma SplitSpecificType(data: Dict<seq<Element>>, i: nat, e: Element)
    requires i < |data| && SplitWorkspace(data).Split?
    requires EntryFor(data[i].0).value.integrationSpecific
    requires e in data[i].1
    ensures e in SplitWorkspace(data).specific[i].1 <==> IsMarked(e)
    ensures e in SplitWorkspace(data).universal[i].1 <==> !IsMarked(e)
  {
  }

  /** The imperative `splitWorkspaceData`: pushes element by element into the
      two dictionaries. */
  method SplitWorkspaceData(data: Dict<seq<Element>>) returns (r: Split)
    ensures r == SplitWorkspace(data)
  {
    var universal: Dict<seq<Element>> := [];
    var specific: Dict<seq<Element>> := [];
    var i := 0;
    while i < |data|
      invariant 0 <= i <= |data|
      invariant forall m :: 0 <= m < i ==> EntryFor(data[m].0).Some?
      invariant |universal| == i && |specific| == i
      invariant forall m :: 0 <= m < i ==>
        universal[m] == (data[m].0, SplitType(EntryFor(data[m].0).value, data[m].1).0) &&
        specific[m] == (data[m].0, SplitType(EntryFor(data[m].0).value, data[m].1).1)
    {
      var t := data[i].0;
      var entry := EntryFor(t);
      if entry.None? {
        return SplitFailed(TypeError("INTEGRATION_ELEMENTS[elementType] is undefined"));
      }
      var u, s := SplitTypeRun(entry.value, data[i].1);
      universal := universal + [(t, u)];
      specific := specific + [(t, s)];
      i := i + 1;
    }
    r := Split(universal, specific);
  }

  /** One type's elements: partitioned when the type is integration-specific. */
  method SplitTypeRun(entry: Entry, es: seq<Element>) returns (u: seq<Element>, s: seq<Element>)
    ensures (u, s) == SplitType(entry, es)
  {
    u, s := [], [];
    if !entry.integrationSpecific {
      return es, [];
    }
    var j := 0;
    while j < |es|
      invariant 0 <= j <= |es|
      invariant u == Partition(es[..j], false) && s == Partition(es[..j], true)
    {
      assert es[..j + 1] == es[..j] + [es[j]];
      PartitionAppend(es[..j], [es[j]], false);
      PartitionAppend(es[..j], [es[j]], true);
      if IsMarked(es[j]) {
        s := s + [es[j]];
      } else {
        u := u + [es[j]];
      }
      j := j + 1;
    }
    assert es[..j] == es;
  }

  // ---------------------------------------------------------------------
  // Fetching a workspace (`getWorkspaceData`)

  /** One fetched item after `baseExportCleanup` and the type's own hook. */
  function CleanItem(entry: Entry, item: Element): Element
  {
    RunCleanup(entry.exportCleanup, BaseExportCleanup(item))
  }

  function CleanAll(entry: Entry, items: seq<Element>): (r: seq<Element>)
    ensures |r| == |items|
    ensures forall i :: 0 <= i < |items| ==> r[i] == CleanItem(entry, items[i])
  {
    seq(|items|, i requires 0 <= i < |items| => CleanItem(entry, items[i]))
  }

  /** `item.integrationKey = key`, applied before cleanup. */
  function StampAll(items: seq<Element>, key: Value): (r: seq<Element>)
    ensures |r| == |items|
    ensures forall i :: 0 <= i < |items| ==> r[i] == items[i]["integrationKey" := key]
  {
    seq(|items|, i requires 0 <= i < |items| => items[i]["integrationKey" := key])
  }

  /** An exported element carries none of the stripped fields, and a field
      mapping no data-source id. */
  predicate Stripped(entry: Entry, e: Element)
  {
    (forall k :: k in BaseStrippedFields ==> k !in e)
    && (entry.exportCleanup == DropDataSourceId ==> "dataSourceId" !in e)
  }

  /** Cleanup strips what it should, and the integration stamp survives it. */
  lemma CleanItemStrips(entry: Entry, item: Element, key: Value)
    ensures Stripped(entry, CleanItem(entry, item))
    ensures Get(CleanItem(entry, item["integrationKey" := key]), "integrationKey") == key
  {
  }

  /** The items collected for one integration-specific type, one fetch per
      integration, after `acc`. */
  datatype Scoped = Scoped(log: seq<Call>, items: seq<Element>, err: Option<Error>)

  function FetchScoped(server: Server, log: seq<Call>, entry: Entry, integrations: seq<Element>,
                       acc: seq<Element>): Scoped
    decreases |integrations|
  {
    if |integrations| == 0 then Scoped(log, acc, None)
    else
      var c := FindAll(entry.elements, Some(Get(integrations[0], "id")));
      if !server.succeeds(log, c) then Scoped(log + [c], acc, Some(Rejected(c)))
      else
        var got := StampAll(server.list(log, c), Get(integrations[0], "key"));
        FetchScoped(server, log + [c], entry, integrations[1..], acc + CleanAll(entry, got))
  }

  /** The dictionary built so far. */
  datatype Fetch = Fetch(log: seq<Call>, data: Dict<seq<Element>>, err: Option<Error>)

  /** One catalog entry's turn: skipped when not exportable, otherwise its
      universal fetch, then (when integration-specific) one per integration. */
  function FetchType(server: Server, st: Fetch, integrations: seq<Element>, entry: Entry): Fetch
  {
    if !entry.exportable then st
    else
      var c := FindAll(entry.elements, None);
      if !server.succeeds(st.log, c) then Fetch(st.log + [c], st.data, Some(Rejected(c)))
      else
        var universal := CleanAll(entry, server.list(st.log, c));
        var sc := if entry.integrationSpecific
                  then FetchScoped(server, st.log + [c], entry, integrations, universal)
                  else Scoped(st.log + [c], universal, None);
        if sc.err.Some? then Fetch(sc.log, st.data, sc.err)
        else Fetch(sc.log, Assign(st.data, entry.elements, sc.items), None)
  }

  function FetchTypes(server: Server, st: Fetch, integrations: seq<Element>, entries: seq<Entry>): Fetch
    decreases |entries|
  {
    if st.err.Some? || |entries| == 0 then st
    else FetchTypes(server, FetchType(server, st, integrations, entries[0]), integrations, entries[1..])
  }

  /** `getWorkspaceData`: the integrations first, then every exportable
      catalog type in catalog order. */
  function WorkspaceData(server: Server, log: seq<Call>): Fetch
  {
    var c := FindAll("integrations", None);
    if !server.succeeds(log, c) then Fetch(log + [c], [], Some(Rejected(c)))
    else
      var integrations := server.list(log, c);
      FetchTypes(server, Fetch(log + [c], [("integrations", integrations)], None), integrations, Entries())
  }

  /** Every element of every catalog type has been cleaned; the
      integrations list itself is kept as fetched. */
  predicate AllStripped(data: Dict<seq<Element>>)
  {
    forall i, e ::
      0 <= i < |data| && data[i].0 != "integrations" && EntryFor(data[i].0).Some? && e in data[i].1
      ==> Stripped(EntryFor(data[i].0).value, e)
  }

  lemma {:induction false} FetchScopedStripped(server: Server, log: seq<Call>, entry: Entry,
                                               integrations: seq<Element>, acc: seq<Element>)
    requires forall e :: e in acc ==> Stripped(entry, e)
    ensures forall e :: e in FetchScoped(server, log, entry, integrations, acc).items ==> Stripped(entry, e)
    decreases |integrations|
  {
    if |integrations| > 0 {
      var c := FindAll(entry.elements, Some(Get(integrations[0], "id")));
      if server.succeeds(log, c) {
        var got := StampAll(server.list(log, c), Get(integrations[0], "key"));
        var acc' := acc + CleanAll(entry, got);
        forall e | e in acc' ensures Stripped(entry, e) {
          if e !in acc {
            var i :| 0 <= i < |got| && e == CleanAll(entry, got)[i];
            CleanItemStrips(entry, got[i], Undefined);
          }
        }
        FetchScopedStripped(server, log + [c], entry, integrations[1..], acc');
      }
    }
  }

  /** Every item fetched for integration `I` carries `integrationKey ==
      I.key`, whatever the fetch returned. */
  lemma {:induction false} FetchScopedStamped(server: Server, log: seq<Call>, entry: Entry,
                                              integrations: seq<Element>, acc: seq<Element>)
    ensures var r := FetchScoped(server, log, entry, integrations, acc);
      |acc| <= |r.items| && r.items[..|acc|] == acc &&
      forall m :: |acc| <= m < |r.items| ==>
        exists n :: 0 <= n < |integrations| && Get(r.items[m], "integrationKey") == Get(integrations[n], "key")
    decreases |integrations|
  {
    if |integrations| > 0 {
      var c := FindAll(entry.elements, Some(Get(integrations[0], "id")));
      if server.succeeds(log, c) {
        var key := Get(integrations[0], "key");
        var got := StampAll(server.list(log, c), key);
        var acc' := acc + CleanAll(entry, got);
        FetchScopedStamped(server, log + [c], entry, integrations[1..], acc');
        var r := FetchScoped(server, log, entry, integrations, acc);
        forall m | |acc| <= m < |r.items|
          ensures exists n :: 0 <= n < |integrations| && Get(r.items[m], "integrationKey") == Get(integrations[n], "key")
        {
          if m < |acc'| {
            assert r.items[m] == acc'[m];
            CleanItemStrips(entry, server.list(log, c)[m - |acc|], key);
            assert Get(r.items[m], "integrationKey") == Get(integrations[0], "key");
          } else {
            var n :| 0 <= n < |integrations[1..]| && Get(r.items[m], "integrationKey") == Get(integrations[1..][n], "key");
            assert integrations[1..][n] == integrations[n + 1];
          }
        }
      }
    }
  }

  /** The read that fetches one integration's items of a type. */
  function ScopedCall(entry: Entry, integration: Element): Call
  {
    FindAll(entry.elements, Some(Get(integration, "id")))
  }

  function ScopedCalls(entry: Entry, integrations: seq<Element>): seq<Call>
  {
    seq(|integrations|, i requires 0 <= i < |integrations| => ScopedCall(entry, integrations[i]))
  }

  /** What integration `n` contributes: the reply to its own read, sent
      after the reads of the integrations before it, stamped with its key
      and cleaned. */
  function ScopedBlock(server: Server, log: seq<Call>, entry: Entry, integrations: seq<Element>, n: nat): seq<Element>
    requires n < |integrations|
  {
    var reply := server.list(log + ScopedCalls(entry, integrations)[..n], ScopedCall(entry, integrations[n]));
    CleanAll(entry, StampAll(reply, Get(integrations[n], "key")))
  }

  function ScopedBlocks(server: Server, log: seq<Call>, entry: Entry, integrations: seq<Element>): seq<seq<Element>>
  {
    seq(|integrations|, n requires 0 <= n < |integrations| => ScopedBlock(server, log, entry, integrations, n))
  }

  function Concat(blocks: seq<seq<Element>>): seq<Element>
  {
    if |blocks| == 0 then [] else blocks[0] + Concat(blocks[1..])
  }

  /** A completed per-integration fetch reads once per integration, in
      order. */
  lemma {:induction false} FetchScopedCalls(server: Server, log: seq<Call>, entry: Entry,
                                            integrations: seq<Element>, acc: seq<Element>)
    ensures var r := FetchScoped(server, log, entry, integrations, acc);
      r.err.None? ==> r.log == log + ScopedCalls(entry, integrations)
    decreases |integrations|
  {
    if |integrations| == 0 {
      assert log + ScopedCalls(entry, integrations) == log;
    } else {
      var c := ScopedCall(entry, integrations[0]);
      if server.succeeds(log, c) {
        var b0 := CleanAll(entry, StampAll(server.list(log, c), Get(integrations[0], "key")));
        FetchScopedCalls(server, log + [c], entry, integrations[1..], acc + b0);
        ScopedCallsCons(entry, integrations);
        assert (log + [c]) + ScopedCalls(entry, integrations[1..]) == log + ScopedCalls(entry, integrations);
      }
    }
  }

  /** A completed per-integration fetch appends each integration's own
      block, in integration order. */
  lemma {:induction false} FetchScopedBlocks(server: Server, log: seq<Call>, entry: Entry,
                                             integrations: seq<Element>, acc: seq<Element>)
    ensures var r := FetchScoped(server, log, entry, integrations, acc);
      r.err.None? ==> r.items == acc + Concat(ScopedBlocks(server, log, entry, integrations))
    decreases |integrations|
  {
    if |integrations| == 0 {
      assert ScopedBlocks(server, log, entry, integrations) == [];
    } else {
      var c := ScopedCall(entry, integrations[0]);
      if server.succeeds(log, c) {
        var b0 := CleanAll(entry, StampAll(server.list(log, c), Get(integrations[0], "key")));
        var rest := integrations[1..];
        assert FetchScoped(server, log, entry, integrations, acc) == FetchScoped(server, log + [c], entry, rest, acc + b0);
        FetchScopedBlocks(server, log + [c], entry, rest, acc + b0);
        ScopedBlocksCons(server, log, entry, integrations);
        var bs' := ScopedBlocks(server, log + [c], entry, rest);
        assert Concat([b0] + bs') == b0 + Concat(bs');
        AppendAssoc(acc, b0, Concat(bs'));
      }
    }
  }

  lemma ScopedCallsCons(entry: Entry, integrations: seq<Element>)
    requires |integrations| > 0
    ensures ScopedCalls(entry, integrations) == [ScopedCall(entry, integrations[0])] + ScopedCalls(entry, integrations[1..])
  {
  }

  /** Seen from after the first read, integration `n`'s block is block
      `n - 1` of the rest. */
  lemma ScopedBlocksCons(server: Server, log: seq<Call>, entry: Entry, integrations: seq<Element>)
    requires |integrations| > 0
    ensures var c := ScopedCall(entry, integrations[0]);
      ScopedBlocks(server, log, entry, integrations)
      == [CleanAll(entry, StampAll(server.list(log, c), Get(integrations[0], "key")))]
         + ScopedBlocks(server, log + [c], entry, integrations[1..])
  {
    var c := ScopedCall(entry, integrations[0]);
    var rest := integrations[1..];
    var calls := ScopedCalls(entry, integrations);
    ScopedCallsCons(entry, integrations);
    var bs := ScopedBlocks(server, log, entry, integrations);
    var bs' := ScopedBlocks(server, log + [c], entry, rest);
    forall n | 1 <= n < |integrations| ensures bs[n] == bs'[n - 1] {
      assert calls[..n] == [c] + ScopedCalls(entry, rest)[..n - 1];
      assert log + calls[..n] == (log + [c]) + ScopedCalls(entry, rest)[..n - 1];
      assert rest[n - 1] == integrations[n];
    }
    assert log + calls[..0] == log;
  }

  /** Every item of integration `n`'s block carries `integrationKey` equal
      to that integration's `key`. */
  lemma ScopedBlockStamped(server: Server, log: seq<Call>, entry: Entry, integrations: seq<Element>, n: nat)
    requires n < |integrations|
    ensures forall e :: e in ScopedBlock(server, log, entry, integrations, n) ==>
      Get(e, "integrationKey") == Get(integrations[n], "key")
  {
    var reply := server.list(log + ScopedCalls(entry, integrations)[..n], ScopedCall(entry, integrations[n]));
    var block := ScopedBlock(server, log, entry, integrations, n);
    forall e | e in block ensures Get(e, "integrationKey") == Get(integrations[n], "key") {
      var i :| 0 <= i < |block| && block[i] == e;
      CleanItemStrips(entry, reply[i], Get(integrations[n], "key"));
    }
  }

  lemma {:induction false} FetchTypesStripped(server: Server, st: Fetch, integrations: seq<Element>, entries: seq<Entry>)
    requires AllStripped(st.data)
    requires forall i :: 0 <= i < |entries| ==> EntryFor(entries[i].elements) == Some(entries[i])
    ensures AllStripped(FetchTypes(server, st, integrations, entries).data)
    decreases |entries|
  {
    if st.err.None? && |entries| > 0 {
      var entry := entries[0];
      var st' := FetchType(server, st, integrations, entry);
      if entry.exportable && st'.err.None? {
        var c := FindAll(entry.elements, None);
        var universal := CleanAll(entry, server.list(st.log, c));
        forall e | e in universal ensures Stripped(entry, e) {
          var i :| 0 <= i < |universal| && e == universal[i];
          CleanItemStrips(entry, server.list(st.log, c)[i], Undefined);
        }
        var items: seq<Element>;
        if entry.integrationSpecific {
          FetchScopedStripped(server, st.log + [c], entry, integrations, universal);
          items := FetchScoped(server, st.log + [c], entry, integrations, universal).items;
        } else {
          items := universal;
        }
        assert st'.data == Assign(st.data, entry.elements, items);
        AssignStripped(st.data, entry, items);
      }
      FetchTypesStripped(server, st', integrations, entries[1..]);
    }
  }

  lemma AssignStripped(data: Dict<seq<Element>>, entry: Entry, items: seq<Element>)
    requires AllStripped(data)
    requires EntryFor(entry.elements) == Some(entry)
    requires forall e :: e in items ==> Stripped(entry, e)
    ensures AllStripped(Assign(data, entry.elements, items))
    decreases |data|
  {
    if |data| > 0 && data[0].0 != entry.elements {
      assert AllStripped(data[1..]) by {
        forall i, e | 0 <= i < |data[1..]| && data[1..][i].0 != "integrations" && EntryFor(data[1..][i].0).Some?
                      && e in data[1..][i].1
          ensures Stripped(EntryFor(data[1..][i].0).value, e)
        {
          assert data[1..][i] == data[i + 1];
        }
      }
      AssignStripped(data[1..], entry, items);
    }
  }

  /** What `getWorkspaceData` returns: keys exactly the catalog's, in catalog
      order, with the integrations list as fetched and every other
      element stripped of the workspace-assigned fields. */
  lemma WorkspaceDataShape(server: Server, log: seq<Call>)
    requires WorkspaceData(server, log).err.None?
    ensures var r := WorkspaceData(server, log);
      Keys(r.data) == TypeNames
      && Lookup(r.data, "integrations") == Some(server.list(log, FindAll("integrations", None)))
      && AllStripped(r.data)
  {
    var c := FindAll("integrations", None);
    var integrations := server.list(log, c);
    var st := Fetch(log + [c], [("integrations", integrations)], None);
    EntriesSelfIndexed();
    FetchTypesStripped(server, st, integrations, Entries());
    var entries := Entries();
    EntryForMeaning("integrations");
    assert FetchType(server, st, integrations, entries[0]) == st;
    assert entries[1..] == entries[1..];
    assert TypeNames[..1] == ["integrations"];
    FetchTypesKeys(server, st, integrations, 1);
  }

  /** `getWorkspaceData` only reads: every call it adds is a `findAll`, and
      the earlier log is kept. */
  lemma WorkspaceDataReadsOnly(server: Server, log: seq<Call>)
    ensures var r := WorkspaceData(server, log);
      |log| < |r.log| && r.log[..|log|] == log && forall c :: c in r.log[|log|..] ==> c.FindAll?
  {
    var c := FindAll("integrations", None);
    if server.succeeds(log, c) {
      var integrations := server.list(log, c);
      var st := Fetch(log + [c], [("integrations", integrations)], None);
      FetchTypesReadsOnly(server, st, integrations, Entries());
      var r := FetchTypes(server, st, integrations, Entries());
      Suffixes(log, st.log, r.log);
      assert st.log[|log|..] == [c];
    }
  }

  lemma {:induction false} FetchScopedReadsOnly(server: Server, log: seq<Call>, entry: Entry,
                                                integrations: seq<Element>, acc: seq<Element>)
    ensures var r := FetchScoped(server, log, entry, integrations, acc);
      |log| <= |r.log| && r.log[..|log|] == log && forall c :: c in r.log[|log|..] ==> c.FindAll?
    decreases |integrations|
  {
    if |integrations| > 0 {
      var c := FindAll(entry.elements, Some(Get(integrations[0], "id")));
      if server.succeeds(log, c) {
        var got := StampAll(server.list(log, c), Get(integrations[0], "key"));
        FetchScopedReadsOnly(server, log + [c], entry, integrations[1..], acc + CleanAll(entry, got));
        var r := FetchScoped(server, log + [c], entry, integrations[1..], acc + CleanAll(entry, got));
        Suffixes(log, log + [c], r.log);
        assert (log + [c])[|log|..] == [c];
      }
    }
  }

  lemma FetchTypeReadsOnly(server: Server, st: Fetch, integrations: seq<Element>, entry: Entry)
    ensures var r := FetchType(server, st, integrations, entry);
      |st.log| <= |r.log| && r.log[..|st.log|] == st.log && forall c :: c in r.log[|st.log|..] ==> c.FindAll?
  {
    if entry.exportable {
      var c := FindAll(entry.elements, None);
      if server.succeeds(st.log, c) && entry.integrationSpecific {
        var universal := CleanAll(entry, server.list(st.log, c));
        FetchScopedReadsOnly(server, st.log + [c], entry, integrations, universal);
        var sc := FetchScoped(server, st.log + [c], entry, integrations, universal);
        Suffixes(st.log, st.log + [c], sc.log);
        assert (st.log + [c])[|st.log|..] == [c];
      }
    }
  }

  lemma {:induction false} FetchTypesReadsOnly(server: Server, st: Fetch, integrations: seq<Element>, entries: seq<Entry>)
    ensures var r := FetchTypes(server, st, integrations, entries);
      |st.log| <= |r.log| && r.log[..|st.log|] == st.log && forall c :: c in r.log[|st.log|..] ==> c.FindAll?
    decreases |entries|
  {
    if st.err.None? && |entries| > 0 {
      var st' := FetchType(server, st, integrations, entries[0]);
      FetchTypeReadsOnly(server, st, integrations, entries[0]);
      FetchTypesReadsOnly(server, st', integrations, entries[1..]);
      var r := FetchTypes(server, st', integrations, entries[1..]);
      Suffixes(st.log, st'.log, r.log);
    }
  }

  /** Every catalog entry is the one its own type name looks up. */
  lemma EntriesSelfIndexed()
    ensures forall i :: 0 <= i < |Entries()| ==> EntryFor(Entries()[i].elements) == Some(Entries()[i])
  {
    forall i | 0 <= i < |Entries()| ensures EntryFor(Entries()[i].elements) == Some(Entries()[i]) {
      EntryForMeaning(TypeNames[i]);
    }
  }

  /** Entry `k >= 1` of the catalog is exportable, is not the integrations
      entry, and its type name has not come up before. */
  lemma EntryAt(k: nat)
    requires 1 <= k < |TypeNames|
    ensures Entries()[k].elements == TypeNames[k] && Entries()[k].exportable
    ensures TypeNames[k] !in TypeNames[..k] && TypeNames[k] != "integrations"
  {
    assert EntryFor(TypeNames[k]) == Some(Entries()[k]);
    EntryForMeaning(TypeNames[k]);
  }

  /** One exportable type adds its own key at the end and leaves the
      integrations list alone. */
  lemma FetchTypeKeys(server: Server, st: Fetch, integrations: seq<Element>, entry: Entry)
    requires st.err.None? && entry.exportable && entry.elements !in Keys(st.data)
    requires entry.elements != "integrations"
    ensures var r := FetchType(server, st, integrations, entry);
      r.err.None? ==> Keys(r.data) == Keys(st.data) + [entry.elements]
                      && Lookup(r.data, "integrations") == Lookup(st.data, "integrations")
  {
  }

  /** The entries from index `k` on add their types to the keys in order,
      and never touch the integrations list. */
  lemma {:induction false} FetchTypesKeys(server: Server, st: Fetch, integrations: seq<Element>, k: nat)
    requires 1 <= k <= |TypeNames|
    requires Keys(st.data) == TypeNames[..k]
    requires Lookup(st.data, "integrations") == Some(integrations)
    ensures var r := FetchTypes(server, st, integrations, Entries()[k..]);
      r.err.None? ==> Keys(r.data) == TypeNames && Lookup(r.data, "integrations") == Some(integrations)
    decreases |TypeNames| - k
  {
    var all := Entries();
    var entries := all[k..];
    var r := FetchTypes(server, st, integrations, entries);
    if k == |TypeNames| {
      assert |entries| == 0 && r == st;
      assert TypeNames[..k] == TypeNames;
    } else if st.err.None? {
      var entry := all[k];
      assert entries[0] == entry && entries[1..] == all[k + 1..];
      var st' := FetchType(server, st, integrations, entry);
      assert r == FetchTypes(server, st', integrations, all[k + 1..]);
      EntryAt(k);
      FetchTypeKeys(server, st, integrations, entry);
      if st'.err.None? {
        PrefixSnoc(TypeNames, k);
        FetchTypesKeys(server, st', integrations, k + 1);
      } else {
        assert r == st';
      }
    } else {
      assert r == st;
    }
  }

  /** The imperative `getWorkspaceData`. */
  method GetWorkspaceData(server: Server, log0: seq<Call>) returns (r: Fetch)
    ensures r == WorkspaceData(server, log0)
  {
    var c := FindAll("integrations", None);
    if !server.succeeds(log0, c) {
      return Fetch(log0 + [c], [], Some(Rejected(c)));
    }
    var integrations := server.list(log0, c);
    var log := log0 + [c];
    var data: Dict<seq<Element>> := [("integrations", integrations)];
    ghost var start := Fetch(log, data, None);
    var entries := Entries();
    var i := 0;
    while i < |entries|
      invariant 0 <= i <= |entries|
      invariant FetchTypes(server, Fetch(log, data, None), integrations, entries[i..])
                == FetchTypes(server, start, integrations, entries)
    {
      assert entries[i..][1..] == entries[i + 1..];
      var step := FetchTypeRun(server, Fetch(log, data, None), integrations, entries[i]);
      if step.err.Some? {
        return step;
      }
      log, data := step.log, step.data;
      i := i + 1;
    }
    r := Fetch(log, data, None);
  }

  /** One catalog entry's turn of `getWorkspaceData`. */
  method FetchTypeRun(server: Server, st: Fetch, integrations: seq<Element>, entry: Entry) returns (r: Fetch)
    ensures r == FetchType(server, st, integrations, entry)
  {
    if !entry.exportable {
      return st;
    }
    var call := FindAll(entry.elements, None);
    if !server.succeeds(st.log, call) {
      return Fetch(st.log + [call], st.data, Some(Rejected(call)));
    }
    var sc := Scoped(st.log + [call], CleanAll(entry, server.list(st.log, call)), None);
    if entry.integrationSpecific {
      sc := FetchScopedRun(server, sc.log, entry, integrations, sc.items);
    }
    if sc.err.Some? {
      return Fetch(sc.log, st.data, sc.err);
    }
    r := Fetch(sc.log, Assign(st.data, entry.elements, sc.items), None);
  }

  /** The per-integration fetches of one integration-specific type. */
  method FetchScopedRun(server: Server, log0: seq<Call>, entry: Entry, integrations: seq<Element>, items0: seq<Element>)
    returns (r: Scoped)
    ensures r == FetchScoped(server, log0, entry, integrations, items0)
  {
    var log, items := log0, items0;
    var j := 0;
    while j < |integrations|
      invariant 0 <= j <= |integrations|
      invariant FetchScoped(server, log, entry, integrations[j..], items)
                == FetchScoped(server, log0, entry, integrations, items0)
    {
      var integration := integrations[j];
      assert integrations[j..][1..] == integrations[j + 1..];
      var scoped := FindAll(entry.elements, Some(Get(integration, "id")));
      if !server.succeeds(log, scoped) {
        return Scoped(log + [scoped], items, Some(Rejected(scoped)));
      }
      var got := StampAll(server.list(log, scoped), Get(integration, "key"));
      items := items + CleanAll(entry, got);
      log := log + [scoped];
      j := j + 1;
    }
    r := Scoped(log, items, None);
  }
}

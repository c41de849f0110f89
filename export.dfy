/** `exportPackage`: fetch the workspace inventory and lay it out as one
    YAML file per element, `root/type/key/key.yaml` for a universal element
    and `root/type/key/ik/ik.yaml` for one bound to integration `ik`.
    Directory creation and file writes appear as an abstract list of file
    system operations; paths are `/`-joined segments. */
module Export {
  import opened Js
  import opened Text
  import opened Remote
  import opened Workspace

  /** `readdirSync`-or-`mkdirSync(…, {recursive: true})` on a directory, and
      `writeFileSync` of an element's YAML dump. */
  datatype FsOp = EnsureDir(path: string) | WriteFile(path: string, content: Element)

  /** The operations performed so far and, once `path.join` has thrown, why. */
  datatype Export = Export(ops: seq<FsOp>, err: Option<Error>)

  function Parent(dir: seq<string>): seq<string>
  {
    if |dir| == 0 then [] else dir[..|dir| - 1]
  }

  /** `process.argv[3]`, or `path.join(__dirname, '../../dist')` when that
      argument is missing or empty; `commandDir` is `__dirname` as segments. */
  function ResolveRoot(arg: string, commandDir: seq<string>): (root: seq<string>)
    ensures arg != "" ==> root == [arg]
    ensures arg == "" && |commandDir| >= 2 ==> root == commandDir[..|commandDir| - 2] + ["dist"]
  {
    if arg != "" then [arg] else Parent(Parent(commandDir)) + ["dist"]
  }

  /** `${element.key}`. */
  function KeySegment(e: Element): string
  {
    ToJsString(Get(e, "key"))
  }

  /** The integration directory of an element bound to an integration:
      `integration.key` when `integration` is truthy, else `integrationKey`. */
  function IntegrationSegment(e: Element): (r: Option<string>)
    ensures r.Some? <==> Truthy(Get(e, "integration")) || Truthy(Get(e, "integrationKey"))
    ensures Truthy(Get(e, "integration")) ==> r == Some(ToJsString(Field(Get(e, "integration"), "key")))
    ensures !Truthy(Get(e, "integration")) && Truthy(Get(e, "integrationKey")) ==>
              r == Some(ToJsString(Get(e, "integrationKey")))
  {
    if Truthy(Get(e, "integration")) || Truthy(Get(e, "integrationKey")) then
      Some(ToJsString(if Truthy(Get(e, "integration")) then Field(Get(e, "integration"), "key") else Get(e, "integrationKey")))
    else None
  }

  /** The file an element of type `t` is written to, below the root.  A
      universal element's key goes to `path.join` unconverted, which throws
      unless it is a string: then there is no target. */
  function Target(t: string, e: Element): (r: Option<seq<string>>)
    ensures IntegrationSegment(e).Some? ==>
      var ik := IntegrationSegment(e).value;
      r == Some([t, KeySegment(e), ik, ik + ".yaml"])
    ensures IntegrationSegment(e).None? ==> (r.Some? <==> Get(e, "key").Str?)
    ensures IntegrationSegment(e).None? && Get(e, "key").Str? ==>
      var k := Get(e, "key").s;
      r == Some([t, k, k + ".yaml"]) && k == KeySegment(e)
  {
    match IntegrationSegment(e)
    case Some(ik) => Some([t, KeySegment(e), ik, ik + ".yaml"])
    case None =>
      match Get(e, "key")
      case Str(k) => Some([t, k, k + ".yaml"])
      case _ => None
  }

  const NotAString := TypeError("The \"path\" argument must be of type string")

  /** The operations for one element: its key directory, then either its
      integration directory and file, or its file. */
  function ElementOps(root: seq<string>, t: string, e: Element): Export
  {
    var keyDir := EnsureDir(JoinPath(root + [t, KeySegment(e)]));
    match Target(t, e)
    case None => Export([keyDir], Some(NotAString))
    case Some(target) =>
      var ikDir := if IntegrationSegment(e).Some? then [EnsureDir(JoinPath(root + target[..3]))] else [];
      Export([keyDir] + ikDir + [WriteFile(JoinPath(root + target), e)], None)
  }

  function ExportElements(root: seq<string>, t: string, st: Export, es: seq<Element>): Export
    decreases |es|
  {
    if st.err.Some? || |es| == 0 then st
    else
      var step := ElementOps(root, t, es[0]);
      ExportElements(root, t, Export(st.ops + step.ops, step.err), es[1..])
  }

  /** The type loop: a type with no elements is skipped outright; otherwise
      the root directory is ensured before its elements. */
  function ExportTypes(root: seq<string>, st: Export, data: Dict<seq<Element>>): Export
    decreases |data|
  {
    if st.err.Some? || |data| == 0 then st
    else ExportTypes(root, TypeStep(root, st, data[0].0, data[0].1), data[1..])
  }

  /** One type of the type loop. */
  function TypeStep(root: seq<string>, st: Export, t: string, es: seq<Element>): Export
  {
    if |es| > 0 then ExportElements(root, t, Export(st.ops + [EnsureDir(JoinPath(root))], None), es)
    else st
  }

  /** `exportPackage`: the calls of `getWorkspaceData`, and the file system
      operations on its result. */
  function ExportPackage(server: Server, log0: seq<Call>, arg: string, commandDir: seq<string>): (seq<Call>, Export)
  {
    var wd := WorkspaceData(server, log0);
    if wd.err.Some? then (wd.log, Export([], wd.err))
    else (wd.log, ExportTypes(ResolveRoot(arg, commandDir), Export([], None), wd.data))
  }

  // ---------------------------------------------------------------------
  // The layout

  /** A type with an empty list creates no directory and writes no file. */
  lemma EmptyTypeSkipped(root: seq<string>, st: Export, data: Dict<seq<Element>>)
    requires |data| > 0 && |data[0].1| == 0
    ensures ExportTypes(root, st, data) == ExportTypes(root, st, data[1..])
  {
  }

  /** The write operations among `ops`, in order. */
  function Writes(ops: seq<FsOp>): (r: seq<FsOp>)
    ensures forall op :: op in r ==> op in ops && op.WriteFile?
  {
    if |ops| == 0 then []
    else (if ops[0].WriteFile? then [ops[0]] else []) + Writes(ops[1..])
  }

  lemma {:induction false} WritesAppend(a: seq<FsOp>, b: seq<FsOp>)
    ensures Writes(a + b) == Writes(a) + Writes(b)
  {
    if |a| == 0 {
      assert a + b == b;
    } else {
      assert (a + b)[0] == a[0];
      assert (a + b)[1..] == a[1..] + b;
      WritesAppend(a[1..], b);
    }
  }

  /** The layout as the design states it: one file per element at its
      target, in input order. */
  function TypeLayout(root: seq<string>, t: string, es: seq<Element>): seq<FsOp>
  {
    if |es| == 0 then []
    else
      (match Target(t, es[0]) case None => [] case Some(p) => [WriteFile(JoinPath(root + p), es[0])])
      + TypeLayout(root, t, es[1..])
  }

  function Layout(root: seq<string>, data: Dict<seq<Element>>): seq<FsOp>
  {
    if |data| == 0 then [] else TypeLayout(root, data[0].0, data[0].1) + Layout(root, data[1..])
  }

  /** An element that `path.join` cannot place. */
  predicate Unplaceable(data: Dict<seq<Element>>)
  {
    exists i :: 0 <= i < |data| && TypeUnplaceable(data[i].0, data[i].1)
  }

  predicate TypeUnplaceable(t: string, es: seq<Element>)
  {
    exists j :: 0 <= j < |es| && Target(t, es[j]).None?
  }

  /** Some element has no target exactly when the first has none or one
      of the rest has none. */
  lemma UnplaceableCons(t: string, es: seq<Element>)
    requires |es| > 0
    ensures TypeUnplaceable(t, es) <==> Target(t, es[0]).None? || TypeUnplaceable(t, es[1..])
  {
    if TypeUnplaceable(t, es[1..]) {
      var j :| 0 <= j < |es[1..]| && Target(t, es[1..][j]).None?;
      assert Target(t, es[j + 1]).None?;
    }
    if j :| 0 <= j < |es| && Target(t, es[j]).None? {
      assert j == 0 || Target(t, es[1..][j - 1]).None?;
    }
  }

  lemma ElementOpsWrites(root: seq<string>, t: string, e: Element)
    ensures var step := ElementOps(root, t, e);
      && (step.err.Some? <==> Target(t, e).None?)
      && Writes(step.ops) == (match Target(t, e) case None => [] case Some(p) => [WriteFile(JoinPath(root + p), e)])
  {
    var keyDir := EnsureDir(JoinPath(root + [t, KeySegment(e)]));
    assert Writes([keyDir]) == [];
    if Target(t, e).Some? {
      var target := Target(t, e).value;
      var ikDir := if IntegrationSegment(e).Some? then [EnsureDir(JoinPath(root + target[..3]))] else [];
      var w := [WriteFile(JoinPath(root + target), e)];
      assert Writes(ikDir) == [];
      WritesAppend([keyDir], ikDir);
      WritesAppend([keyDir] + ikDir, w);
    }
  }

  lemma {:induction false} ExportElementsWrites(root: seq<string>, t: string, st: Export, es: seq<Element>)
    requires st.err.None?
    ensures var r := ExportElements(root, t, st, es);
      && |st.ops| <= |r.ops| && r.ops[..|st.ops|] == st.ops
      && (r.err.Some? <==> TypeUnplaceable(t, es))
      && (r.err.None? ==> Writes(r.ops[|st.ops|..]) == TypeLayout(root, t, es))
    decreases |es|
  {
    if |es| == 0 {
      assert st.ops[|st.ops|..] == [];
    } else {
      var step := ElementOps(root, t, es[0]);
      ElementOpsWrites(root, t, es[0]);
      var st' := Export(st.ops + step.ops, step.err);
      var r := ExportElements(root, t, st, es);
      if step.err.None? {
        ExportElementsWrites(root, t, st', es[1..]);
        assert r == ExportElements(root, t, st', es[1..]);
        Suffixes(st.ops, st'.ops, r.ops);
        assert st'.ops[|st.ops|..] == step.ops;
        WritesAppend(step.ops, r.ops[|st'.ops|..]);
        UnplaceableCons(t, es);
      } else {
        assert TypeUnplaceable(t, es) by { assert Target(t, es[0]).None?; }
      }
    }
  }

  lemma TypeStepWrites(root: seq<string>, st: Export, t: string, es: seq<Element>)
    requires st.err.None?
    ensures var r := TypeStep(root, st, t, es);
      && |st.ops| <= |r.ops| && r.ops[..|st.ops|] == st.ops
      && (r.err.Some? <==> TypeUnplaceable(t, es))
      && (r.err.None? ==> Writes(r.ops[|st.ops|..]) == TypeLayout(root, t, es))
  {
    var r := TypeStep(root, st, t, es);
    if |es| > 0 {
      var pre := Export(st.ops + [EnsureDir(JoinPath(root))], None);
      ExportElementsWrites(root, t, pre, es);
      Suffixes(st.ops, pre.ops, r.ops);
      assert pre.ops[|st.ops|..] == [EnsureDir(JoinPath(root))];
      WritesAppend([EnsureDir(JoinPath(root))], r.ops[|pre.ops|..]);
    } else {
      assert r.ops[|st.ops|..] == [];
    }
  }

  /** The export writes exactly the layout, element by element in input
      order, or stops with an error exactly when some element cannot be
      placed. */
  lemma {:induction false} ExportTypesWrites(root: seq<string>, st: Export, data: Dict<seq<Element>>)
    requires st.err.None?
    ensures var r := ExportTypes(root, st, data);
      && |st.ops| <= |r.ops| && r.ops[..|st.ops|] == st.ops
      && (r.err.Some? <==> Unplaceable(data))
      && (r.err.None? ==> Writes(r.ops[|st.ops|..]) == Layout(root, data))
    decreases |data|
  {
    if |data| == 0 {
      assert st.ops[|st.ops|..] == [];
    } else {
      var st' := TypeStep(root, st, data[0].0, data[0].1);
      TypeStepWrites(root, st, data[0].0, data[0].1);
      var r := ExportTypes(root, st, data);
      if st'.err.None? {
        ExportTypesWrites(root, st', data[1..]);
        assert r == ExportTypes(root, st', data[1..]);
        Suffixes(st.ops, st'.ops, r.ops);
        WritesAppend(st'.ops[|st.ops|..], r.ops[|st'.ops|..]);
        if Unplaceable(data[1..]) {
          var i :| 0 <= i < |data[1..]| && TypeUnplaceable(data[1..][i].0, data[1..][i].1);
          assert data[i + 1] == data[1..][i];
        }
        if i :| 0 <= i < |data| && TypeUnplaceable(data[i].0, data[i].1) {
          assert i > 0 && data[1..][i - 1] == data[i];
        }
      } else {
        assert Unplaceable(data) by { assert TypeUnplaceable(data[0].0, data[0].1); }
      }
    }
  }

  /** Every segment is non-empty and free of "/" (so `path.join` adds
      nothing and removes nothing). */
  predicate PlainSegments(segs: seq<string>)
  {
    forall i :: 0 <= i < |segs| ==> segs[i] != "" && '/' !in segs[i]
  }

  /** Distinct targets give distinct files: under a common root, two
      elements share a file only when they agree on type, key directory and
      integration directory.  A universal and an integration-specific
      element never collide. */
  lemma TargetInjective(root: seq<string>, t1: string, e1: Element, t2: string, e2: Element)
    requires |root| > 0
    requires Target(t1, e1).Some? && Target(t2, e2).Some?
    requires PlainSegments(Target(t1, e1).value) && PlainSegments(Target(t2, e2).value)
    requires JoinPath(root + Target(t1, e1).value) == JoinPath(root + Target(t2, e2).value)
    ensures Target(t1, e1) == Target(t2, e2)
    ensures t1 == t2
    ensures IntegrationSegment(e1).Some? <==> IntegrationSegment(e2).Some?
    ensures IntegrationSegment(e1) == IntegrationSegment(e2)
  {
    var p1, p2 := Target(t1, e1).value, Target(t2, e2).value;
    JoinPathAppend(root, p1);
    JoinPathAppend(root, p2);
    var n := |JoinPath(root)| + 1;
    assert JoinPath(p1) == JoinPath(root + p1)[n..];
    assert JoinPath(p2) == JoinPath(root + p2)[n..];
    JoinPathInjective(p1, p2);
  }

  // ---------------------------------------------------------------------
  // The imperative `exportPackage`

  method ExportPackageRun(server: Server, log0: seq<Call>, arg: string, commandDir: seq<string>)
    returns (log: seq<Call>, r: Export)
    ensures (log, r) == ExportPackage(server, log0, arg, commandDir)
  {
    var root := if arg != "" then [arg] else Parent(Parent(commandDir)) + ["dist"];
    var workspaceData := GetWorkspaceData(server, log0);
    log := workspaceData.log;
    if workspaceData.err.Some? {
      return log, Export([], workspaceData.err);
    }
    r := ExportTypesRun(root, workspaceData.data);
  }

  /** The type loop over the fetched data. */
  method ExportTypesRun(root: seq<string>, data: Dict<seq<Element>>) returns (r: Export)
    ensures r == ExportTypes(root, Export([], None), data)
  {
    var ops: seq<FsOp> := [];
    var i := 0;
    while i < |data|
      invariant 0 <= i <= |data|
      invariant ExportTypes(root, Export(ops, None), data[i..]) == ExportTypes(root, Export([], None), data)
    {
      assert data[i..][1..] == data[i + 1..];
      var step := TypeStepRun(root, ops, data[i].0, data[i].1);
      if step.err.Some? {
        return step;
      }
      ops := step.ops;
      i := i + 1;
    }
    r := Export(ops, None);
  }

  /** One type: skipped when empty, else its root directory and its elements. */
  method TypeStepRun(root: seq<string>, ops0: seq<FsOp>, t: string, es: seq<Element>) returns (r: Export)
    ensures r == TypeStep(root, Export(ops0, None), t, es)
  {
    r := Export(ops0, None);
    if |es| > 0 {
      var ops, err := ExportElementsRun(root, t, ops0 + [EnsureDir(JoinPath(root))], es);
      r := Export(ops, err);
    }
  }

  /** The element loop of one type. */
  method ExportElementsRun(root: seq<string>, t: string, ops0: seq<FsOp>, es: seq<Element>)
    returns (ops: seq<FsOp>, err: Option<Error>)
    ensures Export(ops, err) == ExportElements(root, t, Export(ops0, None), es)
  {
    ops := ops0;
    var j := 0;
    while j < |es|
      invariant 0 <= j <= |es|
      invariant ExportElements(root, t, Export(ops, None), es[j..]) == ExportElements(root, t, Export(ops0, None), es)
    {
      assert es[j..][1..] == es[j + 1..];
      var step := ElementOps(root, t, es[j]);
      ops := ops + step.ops;
      if step.err.Some? {
        return ops, step.err;
      }
      j := j + 1;
    }
    return ops, None;
  }
}

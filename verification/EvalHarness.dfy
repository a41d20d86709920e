/** The evaluation's structural comparison of JSON-like trees, tolerant on floats. */
module EvalHarness {
  import opened Values

  /** One step from a node to a child. */
  datatype PathStep = Key(key: string) | At(index: nat)

  type Path = seq<PathStep>

  datatype What =
    | TypeDiffers
    | MissingKeys(keys: set<string>)
    | ExtraKeys(keys: set<string>)
    | LengthDiffers
    | ValueDiffers

  datatype Difference = Difference(path: Path, what: What)

  function Abs(x: real): real {
    if x < 0.0 then -x else x
  }

  function Max(x: real, y: real): real {
    if x < y then y else x
  }

  const TOLERANCE := 0.000001

  /** `math.isclose` with both tolerances at 1e-6. */
  predicate IsClose(x: real, y: real) {
    Abs(x - y) <= Max(TOLERANCE * Max(Abs(x), Abs(y)), TOLERANCE)
  }

  /** Close within 1e-6 absolutely, or within 1e-6 of either number. */
  lemma CloseWithin(x: real, y: real)
    ensures IsClose(x, y) <==>
      var gap := if x < y then y - x else x - y;
      || gap <= 0.000001
      || gap <= 0.000001 * (if x < 0.0 then -x else x)
      || gap <= 0.000001 * (if y < 0.0 then -y else y)
  {
  }

  predicate SameType(a: Json, b: Json) {
    || (a.Null? && b.Null?) || (a.Bool? && b.Bool?) || (a.Int? && b.Int?) || (a.Float? && b.Float?)
    || (a.Str? && b.Str?) || (a.List? && b.List?) || (a.Obj? && b.Obj?)
  }

  /** Same shape, types, keys and non-float leaves, with floats close. */
  ghost predicate Close(a: Json, b: Json) {
    match (a, b)
    case (Float(x), Float(y)) => IsClose(x, y)
    case (List(s), List(t)) => |s| == |t| && forall i :: 0 <= i < |s| ==> Close(s[i], t[i])
    case (Obj(f), Obj(g)) => f.Keys == g.Keys && forall k :: k in f && k in g ==> Close(f[k], g[k])
    case _ => a == b
  }

  // ---------------------------------------------------------------------------------------------
  // Where two trees differ
  // ---------------------------------------------------------------------------------------------

  /** What is wrong at this very node. */
  ghost predicate DiffersHere(a: Json, b: Json, what: What) {
    if !SameType(a, b) then what == TypeDiffers
    else
      match a
      case Obj(f) =>
        || (what == MissingKeys(b.fields.Keys - f.Keys) && what.keys != {})
        || (what == ExtraKeys(f.Keys - b.fields.Keys) && what.keys != {})
      case List(s) => |s| != |b.items| && what == LengthDiffers
      case Float(x) => !IsClose(x, b.r) && what == ValueDiffers
      case _ => a != b && what == ValueDiffers
  }

  /** Something is wrong at the node a path leads to.  A path goes on through keys both objects have
      and through lists of equal length. */
  ghost predicate Differs(a: Json, b: Json, path: Path, what: What)
    decreases a
  {
    if path == [] then DiffersHere(a, b, what)
    else
      match path[0]
      case Key(k) =>
        a.Obj? && b.Obj? && k in a.fields && k in b.fields && Differs(a.fields[k], b.fields[k], path[1..], what)
      case At(i) =>
        a.List? && b.List? && |a.items| == |b.items| && i < |a.items|
        && Differs(a.items[i], b.items[i], path[1..], what)
  }

  /** Trees that are not close differ somewhere. */
  lemma {:induction false} FindDifference(a: Json, b: Json) returns (path: Path, what: What)
    requires !Close(a, b)
    ensures Differs(a, b, path, what)
    decreases a
  {
    path := [];
    if !SameType(a, b) {
      what := TypeDiffers;
    } else if a.Obj? {
      path, what := FindInObject(a, b);
    } else if a.List? {
      if |a.items| != |b.items| {
        what := LengthDiffers;
      } else {
        var i :| 0 <= i < |a.items| && !Close(a.items[i], b.items[i]);
        path, what := FindDifference(a.items[i], b.items[i]);
        path := [At(i)] + path;
      }
    } else {
      what := ValueDiffers;
    }
  }

  lemma {:induction false} FindInObject(a: Json, b: Json) returns (path: Path, what: What)
    requires a.Obj? && b.Obj? && !Close(a, b)
    ensures Differs(a, b, path, what)
    decreases a, 0
  {
    path := [];
    if b.fields.Keys - a.fields.Keys != {} {
      what := MissingKeys(b.fields.Keys - a.fields.Keys);
    } else if a.fields.Keys - b.fields.Keys != {} {
      what := ExtraKeys(a.fields.Keys - b.fields.Keys);
    } else {
      assert a.fields.Keys == b.fields.Keys;
      var k :| k in a.fields && k in b.fields && !Close(a.fields[k], b.fields[k]);
      path, what := FindDifference(a.fields[k], b.fields[k]);
      path := [Key(k)] + path;
    }
  }

  lemma {:induction false} CloseDiffersNowhere(a: Json, b: Json, path: Path, what: What)
    requires Close(a, b)
    ensures !Differs(a, b, path, what)
    decreases a
  {
    if path != [] {
      if path[0].Key? && a.Obj? && b.Obj? && path[0].key in a.fields && path[0].key in b.fields {
        CloseDiffersNowhere(a.fields[path[0].key], b.fields[path[0].key], path[1..], what);
      } else if path[0].At? && a.List? && b.List? && path[0].index < |a.items| {
        CloseDiffersNowhere(a.items[path[0].index], b.items[path[0].index], path[1..], what);
      }
    } else if a.Obj? && b.Obj? {
      assert a.fields.Keys - b.fields.Keys == {} && b.fields.Keys - a.fields.Keys == {};
    }
  }

  // ---------------------------------------------------------------------------------------------
  // The comparison
  // ---------------------------------------------------------------------------------------------

  /** The report below `path` that `Differs` prescribes. */
  ghost predicate IsReport(a: Json, b: Json, path: Path, diffs: seq<Difference>) {
    forall d: Difference :: d in diffs <==> path <= d.path && Differs(a, b, d.path[|path|..], d.what)
  }

  /** `_diff`: it reports exactly the places where the trees differ, so it is empty if and only if
      they are close. */
  method Diff(a: Json, b: Json, path: Path) returns (diffs: seq<Difference>)
    ensures IsReport(a, b, path, diffs)
    ensures diffs == [] <==> Close(a, b)
    decreases a, 2
  {
    diffs := DiffNodes(a, b, path);
    if diffs == [] && !Close(a, b) {
      ghost var p, what := FindDifference(a, b);
      ReportContains(a, b, path, diffs, p, what);
      assert false;
    }
    if diffs != [] {
      assert diffs[0] in diffs;
      if Close(a, b) {
        CloseDiffersNowhere(a, b, diffs[0].path[|path|..], diffs[0].what);
      }
    }
  }

  lemma ReportContains(a: Json, b: Json, path: Path, diffs: seq<Difference>, p: Path, what: What)
    requires IsReport(a, b, path, diffs) && Differs(a, b, p, what)
    ensures Difference(path + p, what) in diffs
  {
    assert (path + p)[|path|..] == p;
  }

  /** The part of the report that concerns one child. */
  ghost predicate OnChild(a: Json, b: Json, path: Path, step: PathStep, d: Difference) {
    path <= d.path && |d.path| > |path| && d.path[|path|] == step && Differs(a, b, d.path[|path|..], d.what)
  }

  lemma ChildReport(a: Json, b: Json, path: Path, step: PathStep, childA: Json, childB: Json, diffs: seq<Difference>)
    requires IsReport(childA, childB, path + [step], diffs)
    requires match step
             case Key(k) =>
               a.Obj? && b.Obj? && k in a.fields && k in b.fields && childA == a.fields[k] && childB == b.fields[k]
             case At(i) =>
               a.List? && b.List? && |a.items| == |b.items| && i < |a.items| && childA == a.items[i]
               && childB == b.items[i]
    ensures forall d: Difference :: d in diffs <==> OnChild(a, b, path, step, d)
  {
    forall d: Difference
      ensures d in diffs <==> OnChild(a, b, path, step, d)
    {
      if path <= d.path && |d.path| > |path| && d.path[|path|] == step {
        assert d.path[..|path| + 1] == path + [step];
        assert d.path[|path|..][1..] == d.path[|path + [step]|..];
      }
    }
  }

  /** A report is what is wrong at the node itself and what is wrong below its children. */
  lemma ReportSplits(a: Json, b: Json, path: Path, diffs: seq<Difference>)
    requires forall d: Difference :: d in diffs <==>
      || (d.path == path && DiffersHere(a, b, d.what))
      || (|d.path| > |path| && OnChild(a, b, path, d.path[|path|], d))
    ensures IsReport(a, b, path, diffs)
  {
    forall d: Difference
      ensures d in diffs <==> path <= d.path && Differs(a, b, d.path[|path|..], d.what)
    {
      if path <= d.path && |d.path| == |path| {
        assert d.path == path;
      }
    }
  }

  method DiffLists(a: Json, b: Json, path: Path) returns (diffs: seq<Difference>)
    requires a.List? && b.List?
    ensures IsReport(a, b, path, diffs)
    decreases a, 0
  {
    if |a.items| != |b.items| {
      diffs := [Difference(path, LengthDiffers)];
      ReportSplits(a, b, path, diffs);
      return;
    }
    diffs := [];
    for i := 0 to |a.items|
      invariant forall d: Difference :: d in diffs <==> exists j: nat :: j < i && OnChild(a, b, path, At(j), d)
    {
      var child := Diff(a.items[i], b.items[i], path + [At(i)]);
      ChildReport(a, b, path, At(i), a.items[i], b.items[i], child);
      diffs := diffs + child;
    }
    ReportSplits(a, b, path, diffs);
  }

  /** The common keys are walked in no particular order. */
  method DiffObjects(a: Json, b: Json, path: Path) returns (diffs: seq<Difference>)
    requires a.Obj? && b.Obj?
    ensures IsReport(a, b, path, diffs)
    decreases a, 0
  {
    diffs := [];
    var missing, extra := b.fields.Keys - a.fields.Keys, a.fields.Keys - b.fields.Keys;
    if missing != {} {
      diffs := diffs + [Difference(path, MissingKeys(missing))];
    }
    if extra != {} {
      diffs := diffs + [Difference(path, ExtraKeys(extra))];
    }
    ghost var here := diffs;
    var common := a.fields.Keys * b.fields.Keys;
    var rest := common;
    while rest != {}
      invariant rest <= common
      invariant forall d: Difference ::
        d in diffs <==> d in here || exists k :: k in common && k !in rest && OnChild(a, b, path, Key(k), d)
    {
      var k :| k in rest;
      rest := rest - {k};
      var child := Diff(a.fields[k], b.fields[k], path + [Key(k)]);
      ChildReport(a, b, path, Key(k), a.fields[k], b.fields[k], child);
      diffs := diffs + child;
    }
    ReportSplits(a, b, path, diffs);
  }

  method DiffNodes(a: Json, b: Json, path: Path) returns (diffs: seq<Difference>)
    ensures IsReport(a, b, path, diffs)
    decreases a, 1
  {
    if !SameType(a, b) {
      diffs := [Difference(path, TypeDiffers)];
    } else if a.Obj? {
      diffs := DiffObjects(a, b, path);
      return;
    } else if a.List? {
      diffs := DiffLists(a, b, path);
      return;
    } else if a.Float? {
      diffs := if IsClose(a.r, b.r) then [] else [Difference(path, ValueDiffers)];
    } else {
      diffs := if a != b then [Difference(path, ValueDiffers)] else [];
    }
    ReportSplits(a, b, path, diffs);
  }

  // ---------------------------------------------------------------------------------------------
  // Closeness
  // ---------------------------------------------------------------------------------------------

  lemma {:induction false} CloseIsReflexive(a: Json)
    ensures Close(a, a)
    decreases a
  {
    match a
    case Obj(f) =>
      forall k | k in f
        ensures Close(f[k], f[k])
      {
        CloseIsReflexive(f[k]);
      }
    case List(s) =>
      forall i | 0 <= i < |s|
        ensures Close(s[i], s[i])
      {
        CloseIsReflexive(s[i]);
      }
    case _ =>
  }

  /** Swapping the arguments mirrors a report: same places, missing and extra keys exchanged. */
  function Mirror(what: What): What {
    match what
    case MissingKeys(keys) => ExtraKeys(keys)
    case ExtraKeys(keys) => MissingKeys(keys)
    case _ => what
  }

  lemma {:induction false} SwapMirrors(a: Json, b: Json, path: Path, what: What)
    ensures Differs(a, b, path, what) <==> Differs(b, a, path, Mirror(what))
    decreases |path|
  {
    if path != [] {
      match path[0]
      case Key(k) =>
        if a.Obj? && b.Obj? && k in a.fields && k in b.fields {
          SwapMirrors(a.fields[k], b.fields[k], path[1..], what);
        }
      case At(i) =>
        if a.List? && b.List? && |a.items| == |b.items| && i < |a.items| {
          SwapMirrors(a.items[i], b.items[i], path[1..], what);
        }
    }
  }

  lemma {:induction false} CloseIsSymmetric(a: Json, b: Json)
    ensures Close(a, b) <==> Close(b, a)
  {
    if !Close(a, b) {
      var path, what := FindDifference(a, b);
      SwapMirrors(a, b, path, what);
      if Close(b, a) {
        CloseDiffersNowhere(b, a, path, Mirror(what));
      }
    } else if !Close(b, a) {
      var path, what := FindDifference(b, a);
      SwapMirrors(b, a, path, what);
      CloseDiffersNowhere(a, b, path, Mirror(what));
    }
  }

  /** Keys on one side only are reported at their object, each on its own side. */
  lemma {:induction false} OneSidedKeysAreReported(a: Json, b: Json, path: Path, diffs: seq<Difference>,
                                                   keys: set<string>)
    requires a.Obj? && b.Obj? && IsReport(a, b, path, diffs)
    ensures Difference(path, MissingKeys(keys)) in diffs <==> keys == b.fields.Keys - a.fields.Keys && keys != {}
    ensures Difference(path, ExtraKeys(keys)) in diffs <==> keys == a.fields.Keys - b.fields.Keys && keys != {}
  {
    assert path[|path|..] == [];
  }

  /** Closeness is not an equivalence: drift can creep. */
  lemma CloseIsNotTransitive() returns (a: Json, b: Json, c: Json)
    ensures Close(a, b) && Close(b, c) && !Close(a, c)
  {
    a, b, c := Float(0.0), Float(0.000001), Float(0.000002);
  }
}

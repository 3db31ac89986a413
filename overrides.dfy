/**
 * The agent's infrastructure-override merge: each override is a dot-delimited
 * path into the infrastructure block's data (`env.MY_VAR`) and a value. The
 * agent splits the path on '.', descends through every segment but the last
 * (`data = data[field]`) and assigns the value under the last segment.
 *
 * `Lookup`, `SetPath` and `ApplyOverrides` are the specification on values;
 * `ApplyOverride` and `MergeOverrides` are the agent's loops, proved equal to it.
 */
module InfraOverrides {
  import opened Common

  /** KeyError for a missing intermediate field, TypeError for a non-dict value. */
  datatype MergeError = MissingKey(key: string) | NotAMapping(key: string)

  /** The value reached from `d` by reading the fields of `path` one after another. */
  function Lookup(d: Doc, path: seq<string>): (r: Option<Doc>)
    ensures path == [] ==> r == Some(d)
    ensures path != [] && r.Some? ==> d.Obj? && path[0] in d.fields
    decreases |path|
  {
    if path == [] then Some(d)
    else match d
      case Obj(f) => if path[0] in f then Lookup(f[path[0]], path[1..]) else None
      case _ => None
  }

  /** Two paths address unrelated places: neither is a prefix of the other. */
  predicate Disjoint(p: seq<string>, q: seq<string>) {
    !(p <= q) && !(q <= p)
  }

  /**
   * One override on values: the document after `data[path[-1]] = value`,
   * where `data` was reached by reading `path[:-1]`.
   */
  function SetPath(d: Doc, path: seq<string>, value: Doc): (r: Result<Doc, MergeError>)
    requires |path| >= 1
    ensures !d.Obj? ==> r == Err(NotAMapping(path[0]))
    ensures r.Ok? ==> d.Obj? && r.value.Obj?
    decreases |path|
  {
    match d
    case Obj(f) =>
      if |path| == 1 then Ok(Obj(f[path[0] := value]))
      else if path[0] !in f then Err(MissingKey(path[0]))
      else (
        match SetPath(f[path[0]], path[1..], value)
        case Ok(child) => Ok(Obj(f[path[0] := child]))
        case Err(e) => Err(e))
    case _ => Err(NotAMapping(path[0]))
  }

  /** All overrides, in order; the first failure aborts the merge. */
  function ApplyOverrides(d: Doc, overrides: seq<(string, Doc)>): (r: Result<Doc, MergeError>)
    ensures d.Obj? && r.Ok? ==> r.value.Obj?
    decreases |overrides|
  {
    if overrides == [] then Ok(d)
    else
      match ApplyOverrides(d, overrides[..|overrides| - 1])
      case Err(e) => Err(e)
      case Ok(prev) =>
        var (key, value) := overrides[|overrides| - 1];
        SetPath(prev, Split(key, '.'), value)
  }

  // ---------------------------------------------------------------------------
  // Lookup along a concatenated path

  lemma {:induction false} LookupAppend(d: Doc, p: seq<string>, q: seq<string>)
    ensures Lookup(d, p + q) == (match Lookup(d, p) case None => None case Some(x) => Lookup(x, q))
    decreases |p|
  {
    if p == [] {
      assert p + q == q;
    } else {
      assert (p + q)[0] == p[0];
      assert (p + q)[1..] == p[1..] + q;
      match d
      case Obj(f) =>
        if p[0] in f {
          LookupAppend(f[p[0]], p[1..], q);
        }
      case _ =>
    }
  }

  lemma LookupStep(d: Doc, path: seq<string>, i: nat, f: map<string, Doc>)
    requires i < |path|
    requires Lookup(d, path[..i]) == Some(Obj(f)) && path[i] in f
    ensures Lookup(d, path[..i + 1]) == Some(f[path[i]])
  {
    assert path[..i + 1] == path[..i] + [path[i]];
    LookupAppend(d, path[..i], [path[i]]);
  }

  // ---------------------------------------------------------------------------
  // What one override does

  /** An override succeeds exactly when the parent of its leaf is reached and is a mapping. */
  lemma {:induction false} SetPathSucceeds(d: Doc, p: seq<string>, v: Doc)
    requires |p| >= 1
    ensures SetPath(d, p, v).Ok? <==>
              Lookup(d, p[..|p| - 1]).Some? && Lookup(d, p[..|p| - 1]).value.Obj?
    decreases |p|
  {
    if |p| > 1 && d.Obj? && p[0] in d.fields {
      SetPathSucceeds(d.fields[p[0]], p[1..], v);
      assert p[..|p| - 1][1..] == p[1..][..|p| - 2];
    }
  }

  /**
   * A missing intermediate field makes the override fail with KeyError on that
   * field; nothing is created in its place.
   */
  lemma {:induction false} SetPathMissing(d: Doc, p: seq<string>, v: Doc, k: nat, f: map<string, Doc>)
    requires k + 1 < |p|
    requires Lookup(d, p[..k]) == Some(Obj(f)) && p[k] !in f
    ensures SetPath(d, p, v) == Err(MissingKey(p[k]))
    decreases k
  {
    if k > 0 {
      assert p[..k][0] == p[0] && p[..k][1..] == p[1..][..k - 1];
      SetPathMissing(d.fields[p[0]], p[1..], v, k - 1, f);
    }
  }

  /** After a successful override the addressed leaf holds the value. */
  lemma {:induction false} SetPathSets(d: Doc, p: seq<string>, v: Doc)
    requires |p| >= 1 && SetPath(d, p, v).Ok?
    ensures Lookup(SetPath(d, p, v).value, p) == Some(v)
    decreases |p|
  {
    if |p| > 1 {
      SetPathSets(d.fields[p[0]], p[1..], v);
    }
  }

  /** Below the addressed leaf the document is the override value itself. */
  lemma {:induction false} SetPathBelow(d: Doc, p: seq<string>, v: Doc, q: seq<string>)
    requires |p| >= 1 && SetPath(d, p, v).Ok? && p <= q
    ensures Lookup(SetPath(d, p, v).value, q) == Lookup(v, q[|p|..])
    decreases |p|
  {
    assert q[0] == p[0];
    if |p| > 1 {
      assert p[1..] <= q[1..];
      assert q[1..][|p| - 1..] == q[|p|..];
      SetPathBelow(d.fields[p[0]], p[1..], v, q[1..]);
    }
  }

  /** Every place that is neither on the override path nor below its leaf is unchanged. */
  lemma {:induction false} SetPathFrame(d: Doc, p: seq<string>, v: Doc, q: seq<string>)
    requires |p| >= 1 && SetPath(d, p, v).Ok?
    requires !(p <= q) && !(q < p)
    ensures Lookup(SetPath(d, p, v).value, q) == Lookup(d, q)
    decreases |p|
  {
    assert q != [];
    if q[0] == p[0] {
      PrefixCons(p, q);
      SetPathFrame(d.fields[p[0]], p[1..], v, q[1..]);
    }
  }

  /** Prefix relations between two paths that start with the same key. */
  lemma PrefixCons(p: seq<string>, q: seq<string>)
    requires p != [] && q != [] && p[0] == q[0]
    ensures p <= q <==> p[1..] <= q[1..]
    ensures q < p <==> q[1..] < p[1..]
    ensures |p| == 1 ==> p <= q
  {
  }

  /**
   * On the way to the leaf every mapping keeps its keys, except that the leaf's
   * parent gains the leaf's key; the intermediate keys were all present before.
   */
  lemma {:induction false} SetPathAncestors(d: Doc, p: seq<string>, v: Doc, q: seq<string>)
    requires |p| >= 1 && SetPath(d, p, v).Ok? && q < p
    ensures Lookup(d, q).Some? && Lookup(d, q).value.Obj?
    ensures Lookup(SetPath(d, p, v).value, q).Some? && Lookup(SetPath(d, p, v).value, q).value.Obj?
    ensures Lookup(SetPath(d, p, v).value, q).value.fields.Keys ==
              Lookup(d, q).value.fields.Keys + {p[|q|]}
    ensures |q| + 1 < |p| ==> p[|q|] in Lookup(d, q).value.fields
    decreases |p|
  {
    if q != [] {
      assert q[0] == p[0] && q[1..] < p[1..];
      SetPathAncestors(d.fields[p[0]], p[1..], v, q[1..]);
    }
  }

  /** Overriding the same path twice: the later value wins, the earlier leaves no trace. */
  lemma {:induction false} SetPathLastWins(d: Doc, p: seq<string>, v1: Doc, v2: Doc)
    requires |p| >= 1 && SetPath(d, p, v1).Ok?
    ensures SetPath(SetPath(d, p, v1).value, p, v2) == SetPath(d, p, v2)
    decreases |p|
  {
    if |p| > 1 {
      SetPathLastWins(d.fields[p[0]], p[1..], v1, v2);
      var f := d.fields;
      var c1 := SetPath(f[p[0]], p[1..], v1).value;
      var second := SetPath(c1, p[1..], v2);
      if second.Ok? {
        assert f[p[0] := c1][p[0] := second.value] == f[p[0] := second.value];
      }
    } else {
      var f := d.fields;
      assert f[p[0] := v1][p[0] := v2] == f[p[0] := v2];
    }
  }

  // ---------------------------------------------------------------------------
  // What the whole sequence of overrides does

  /** Once a prefix of the overrides fails, the whole merge fails with that error. */
  lemma {:induction false} ApplyOverridesErr(d: Doc, overrides: seq<(string, Doc)>, i: nat, e: MergeError)
    requires i <= |overrides| && ApplyOverrides(d, overrides[..i]) == Err(e)
    ensures ApplyOverrides(d, overrides) == Err(e)
    decreases |overrides| - i
  {
    if i < |overrides| {
      assert overrides[..i + 1][..i] == overrides[..i];
      ApplyOverridesErr(d, overrides, i + 1, e);
    } else {
      assert overrides[..i] == overrides;
    }
  }

  /** A place disjoint from every override path keeps its original value. */
  lemma {:induction false} ApplyOverridesUntouched(d: Doc, overrides: seq<(string, Doc)>, q: seq<string>)
    requires ApplyOverrides(d, overrides).Ok?
    requires forall i :: 0 <= i < |overrides| ==> Disjoint(Split(overrides[i].0, '.'), q)
    ensures Lookup(ApplyOverrides(d, overrides).value, q) == Lookup(d, q)
    decreases |overrides|
  {
    if overrides != [] {
      var n := |overrides| - 1;
      var init := overrides[..n];
      forall i | 0 <= i < |init| ensures Disjoint(Split(init[i].0, '.'), q) {
        assert init[i] == overrides[i];
      }
      ApplyOverridesUntouched(d, init, q);
      assert Disjoint(Split(overrides[n].0, '.'), q);
      SetPathFrame(ApplyOverrides(d, init).value, Split(overrides[n].0, '.'), overrides[n].1, q);
    }
  }

  /**
   * An override whose path no later override touches (neither an ancestor nor
   * a descendant nor the same path) holds its value in the result; in particular,
   * of two overrides of one path the later one wins.
   */
  lemma {:induction false} ApplyOverridesTakesEffect(d: Doc, overrides: seq<(string, Doc)>, i: nat)
    requires i < |overrides| && ApplyOverrides(d, overrides).Ok?
    requires forall j :: i < j < |overrides| ==>
               Disjoint(Split(overrides[j].0, '.'), Split(overrides[i].0, '.'))
    ensures Lookup(ApplyOverrides(d, overrides).value, Split(overrides[i].0, '.')) == Some(overrides[i].1)
    decreases |overrides|
  {
    var n := |overrides| - 1;
    var init := overrides[..n];
    var prev := ApplyOverrides(d, init);
    if prev.Err? {
      ApplyOverridesErr(d, overrides, n, prev.error);
    } else if i == n {
      SetPathSets(prev.value, Split(overrides[n].0, '.'), overrides[n].1);
    } else {
      forall j | i < j < |init|
        ensures Disjoint(Split(init[j].0, '.'), Split(init[i].0, '.'))
      {
        assert init[j] == overrides[j] && init[i] == overrides[i];
      }
      ApplyOverridesTakesEffect(d, init, i);
      assert init[i] == overrides[i];
      SetPathFrame(prev.value, Split(overrides[n].0, '.'), overrides[n].1, Split(overrides[i].0, '.'));
    }
  }

  // ---------------------------------------------------------------------------
  // The agent's loops

  /** An error met at depth `i` is the error of the whole override. */
  lemma {:induction false} SetPathErrLift(root: Doc, path: seq<string>, v: Doc, i: nat, n: Doc)
    requires i < |path| && Lookup(root, path[..i]) == Some(n)
    requires SetPath(n, path[i..], v).Err?
    ensures SetPath(root, path, v) == SetPath(n, path[i..], v)
    decreases i
  {
    if i == 0 {
      assert path[0..] == path;
    } else {
      assert path[..i][0] == path[0] && path[..i][1..] == path[1..][..i - 1];
      assert path[1..][i - 1..] == path[i..];
      SetPathErrLift(root.fields[path[0]], path[1..], v, i - 1, n);
    }
  }

  /**
   * One override as the agent runs it: a loop that descends through every
   * segment but the last, then the assignment under the last segment. The
   * in-place update of the nested dicts is rebuilt bottom-up on values.
   */
  method ApplyOverride(root: Doc, path: seq<string>, value: Doc) returns (r: Result<Doc, MergeError>)
    requires |path| >= 1
    ensures r == SetPath(root, path, value)
  {
    var last := |path| - 1;
    var node := root;
    var trail: seq<map<string, Doc>> := [];
    var i := 0;
    while i < last
      invariant 0 <= i <= last && |trail| == i
      invariant Lookup(root, path[..i]) == Some(node)
      invariant forall k :: 0 <= k < i ==>
                  Lookup(root, path[..k]) == Some(Obj(trail[k])) && path[k] in trail[k]
    {
      if !node.Obj? {
        SetPathErrLift(root, path, value, i, node);
        return Err(NotAMapping(path[i]));
      }
      var f := node.fields;
      if path[i] !in f {
        SetPathErrLift(root, path, value, i, node);
        return Err(MissingKey(path[i]));
      }
      LookupStep(root, path, i, f);
      trail := trail + [f];
      node := f[path[i]];
      i := i + 1;
    }
    assert path[last..] == [path[last]];
    if !node.Obj? {
      SetPathErrLift(root, path, value, last, node);
      return Err(NotAMapping(path[last]));
    }
    var acc := Obj(node.fields[path[last] := value]);
    var j := last;
    while j > 0
      invariant 0 <= j <= last
      invariant Lookup(root, path[..j]).Some?
      invariant SetPath(Lookup(root, path[..j]).value, path[j..], value) == Ok(acc)
    {
      j := j - 1;
      var t := trail[j];
      LookupStep(root, path, j, t);
      assert path[j..][0] == path[j] && path[j..][1..] == path[j + 1..];
      acc := Obj(t[path[j] := acc]);
    }
    assert path[0..] == path;
    r := Ok(acc);
  }

  /**
   * The merge loop of `get_infrastructure`: every override of the deployment is
   * applied, in order, to the block document's data.
   */
  method MergeOverrides(data: map<string, Doc>, overrides: seq<(string, Doc)>) returns (r: Result<Doc, MergeError>)
    ensures r == ApplyOverrides(Obj(data), overrides)
  {
    var cur := Obj(data);
    var i := 0;
    while i < |overrides|
      invariant 0 <= i <= |overrides|
      invariant ApplyOverrides(Obj(data), overrides[..i]) == Ok(cur)
    {
      var (key, value) := overrides[i];
      var step := ApplyOverride(cur, Split(key, '.'), value);
      assert overrides[..i + 1][..i] == overrides[..i];
      if step.Err? {
        ApplyOverridesErr(Obj(data), overrides, i + 1, step.error);
        return step;
      }
      cur := step.value;
      i := i + 1;
    }
    assert overrides[..i] == overrides;
    r := Ok(cur);
  }

  // ---------------------------------------------------------------------------
  // Worked examples

  /** `env.API_KEY = "secret"` merged into `{env: {}}` gives `{env: {API_KEY: "secret"}}`. */
  lemma ExampleNestedOverride()
    ensures SetPath(Obj(map["env" := Obj(map[])]), ["env", "API_KEY"], Str("secret"))
         == Ok(Obj(map["env" := Obj(map["API_KEY" := Str("secret")])]))
  {
    var inner: map<string, Doc> := map[];
    assert SetPath(Obj(inner), ["API_KEY"], Str("secret")) == Ok(Obj(map["API_KEY" := Str("secret")]));
    assert ["env", "API_KEY"][1..] == ["API_KEY"];
    assert map["env" := Obj(inner)]["env" := Obj(map["API_KEY" := Str("secret")])]
        == map["env" := Obj(map["API_KEY" := Str("secret")])];
  }

  /** `name.sub = 1` against `{name: "x"}` fails: a string cannot be assigned into. */
  lemma ExampleNotAMapping()
    ensures SetPath(Obj(map["name" := Str("x")]), ["name", "sub"], Num(1)) == Err(NotAMapping("sub"))
  {
    assert ["name", "sub"][1..] == ["sub"];
  }

  /** `env.X = 1` against `{}` fails with KeyError on `env`: the missing node is not created. */
  lemma ExampleMissingIntermediate()
    ensures SetPath(Obj(map[]), ["env", "X"], Num(1)) == Err(MissingKey("env"))
  {
  }
}

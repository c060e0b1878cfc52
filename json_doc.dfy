/** Parsed YAML/JSON documents (the nested dicts and lists the configuration
    files load into) and the nested-key reads and writes the Python code does
    with `d[k1][k2][k3]` and `d[k1][k2][k3] = v`. */
module JsonDoc {

  import opened Results

  datatype Json =
    | JNull
    | JBool(b: bool)
    | JInt(i: int)
    | JStr(s: string)
    | JList(items: seq<Json>)
    | JObject(fields: map<string, Json>)

  /** `d[p0][p1]...` read along a path of string keys; None where a step is
      missing or reaches something that is not a mapping (KeyError/TypeError). */
  function Get(j: Json, path: seq<string>): Option<Json>
    decreases |path|
  {
    if path == [] then Some(j)
    else match j
      case JObject(f) => if path[0] in f then Get(f[path[0]], path[1..]) else None
      case _ => None
  }

  /** `d[p0]...[pn] = v`: every container on the way must be a mapping holding
      the next key, and the last container must be a mapping (it may lack the
      last key, which is then added). None is the KeyError/TypeError case. */
  function Set(j: Json, path: seq<string>, v: Json): Option<Json>
    requires |path| > 0
    decreases |path|
  {
    match j
    case JObject(f) =>
      if |path| == 1 then Some(JObject(f[path[0] := v]))
      else if path[0] in f then
        match Set(f[path[0]], path[1..], v)
        case Some(child) => Some(JObject(f[path[0] := child]))
        case None => None
      else None
    case _ => None
  }

  /** The value at `path` exists and is a mapping. */
  predicate IsObjectAt(j: Json, path: seq<string>) {
    Get(j, path).Some? && Get(j, path).value.JObject?
  }

  predicate IsPrefix(p: seq<string>, q: seq<string>) {
    |p| <= |q| && q[..|p|] == p
  }

  /** Neither path lies on the other's way: writing at one leaves the other alone. */
  predicate Independent(p: seq<string>, q: seq<string>) {
    !IsPrefix(p, q) && !IsPrefix(q, p)
  }

  lemma PrefixOfTails(p: seq<string>, q: seq<string>)
    requires |p| > 0 && |q| > 0 && p[0] == q[0]
    ensures IsPrefix(p[1..], q[1..]) <==> IsPrefix(p, q)
  {
    if IsPrefix(p[1..], q[1..]) {
      assert q[..|p|] == [q[0]] + q[1..][..|p| - 1];
    }
    if IsPrefix(p, q) {
      assert q[1..][..|p| - 1] == q[..|p|][1..];
    }
  }

  /** An assignment succeeds exactly when its target container is a mapping. */
  lemma {:induction false} SetDefinedIff(j: Json, path: seq<string>, v: Json)
    requires |path| > 0
    ensures Set(j, path, v).Some? <==> IsObjectAt(j, path[..|path| - 1])
    decreases |path|
  {
    if |path| > 1 && j.JObject? && path[0] in j.fields {
      SetDefinedIff(j.fields[path[0]], path[1..], v);
      assert path[1..][..|path[1..]| - 1] == path[..|path| - 1][1..];
    }
  }

  /** Reading back the assigned path gives the assigned value. */
  lemma {:induction false} GetAfterSet(j: Json, path: seq<string>, v: Json)
    requires |path| > 0 && Set(j, path, v).Some?
    ensures Get(Set(j, path, v).value, path) == Some(v)
    decreases |path|
  {
    if |path| > 1 {
      GetAfterSet(j.fields[path[0]], path[1..], v);
    }
  }

  /** An assignment changes nothing at an independent path. */
  lemma {:induction false} GetIndependentOfSet(j: Json, path: seq<string>, v: Json, q: seq<string>)
    requires |path| > 0 && Set(j, path, v).Some?
    requires Independent(path, q)
    ensures Get(Set(j, path, v).value, q) == Get(j, q)
    decreases |path|
  {
    assert path[..0] == [];
    assert q != [];
    if q[0] != path[0] {
    } else {
      assert q[..1] == path[..1];
      assert |path| > 1;
      assert |q| > 1;
      PrefixOfTails(path, q);
      PrefixOfTails(q, path);
      GetIndependentOfSet(j.fields[path[0]], path[1..], v, q[1..]);
    }
  }

  /** Containers on the assigned path stay mappings after the assignment. */
  lemma {:induction false} SetKeepsContainers(j: Json, path: seq<string>, v: Json, q: seq<string>)
    requires |path| > 0 && Set(j, path, v).Some?
    requires |q| < |path| && IsPrefix(q, path)
    ensures IsObjectAt(Set(j, path, v).value, q)
    decreases |path|
  {
    if q != [] {
      SetKeepsContainers(j.fields[path[0]], path[1..], v, q[1..]);
    }
  }

  /** A value found at a path sits in a mapping at the path's parent. */
  lemma {:induction false} GetHasObjectParent(j: Json, path: seq<string>)
    requires |path| > 0 && Get(j, path).Some?
    ensures IsObjectAt(j, path[..|path| - 1])
    decreases |path|
  {
    if |path| > 1 {
      GetHasObjectParent(j.fields[path[0]], path[1..]);
      assert path[1..][..|path[1..]| - 1] == path[..|path| - 1][1..];
    }
  }
}

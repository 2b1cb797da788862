/**
 * The container filesystem tree as `pull` and `push` walk it: a nested mapping from path
 * segment to a directory mapping or a file. Walking follows Python truthiness, so an
 * existing but empty directory counts as missing, and asking a file for a child fails.
 */
module Filesystem {
  import opened Wrappers
  import opened SceneModel

  /** Why a walk stopped, named after the exception the simulator raises there. */
  datatype WalkError =
    | Missing        // FileNotFoundError: the segment is absent or an empty directory
    | ThroughFile    // AttributeError: a file path has no `get`
    | MakeDirsUnset  // KeyError: the `make_dirs` keyword is read but was not passed

  /** The entry `pull` reaches by looking up `tokens` one after the other from `pos`. */
  function Resolve(pos: Node, tokens: seq<string>): Result<Node, WalkError>
    decreases |tokens|
  {
    if tokens == [] then Success(pos)
    else
      match pos
      case File(_) => Failure(ThroughFile)
      case Dir(m) =>
        if tokens[0] in m && Truthy(m[tokens[0]]) then Resolve(m[tokens[0]], tokens[1..])
        else Failure(Missing)
  }

  /** Where `push`'s walk over the intermediate directories ends. */
  datatype WalkEnd = AtDir | AtFile

  /**
   * The outcome of `push`'s walk over the intermediate segments `dirs`: a missing (or empty)
   * directory is created when `make_dirs` is true, reported when it is false, and reading
   * the unset keyword fails; once one directory is created every later one is too.
   */
  function PushPlan(pos: Node, dirs: seq<string>, makeDirs: Option<bool>): Result<WalkEnd, WalkError>
    decreases |dirs|
  {
    if dirs == [] then Success(if pos.File? then AtFile else AtDir)
    else
      match pos
      case File(_) => Failure(ThroughFile)
      case Dir(m) =>
        if dirs[0] in m && Truthy(m[dirs[0]]) then PushPlan(m[dirs[0]], dirs[1..], makeDirs)
        else if makeDirs.None? then Failure(MakeDirsUnset)
        else if makeDirs.value then PushPlan(Dir(map[]), dirs[1..], makeDirs)
        else Failure(Missing)
  }

  /**
   * The tree after `push`'s walk has put a fresh directory at every missing segment of `dirs`
   * and bound `name` to `leaf` in the last directory: the in-place writes of the walk,
   * applied to the tree as one update.
   */
  function Bind(m: map<string, Node>, dirs: seq<string>, name: string, leaf: Node): (r: map<string, Node>)
    ensures (if dirs == [] then name else dirs[0]) in r
    ensures r.Keys == m.Keys + {if dirs == [] then name else dirs[0]}
    ensures forall k :: k in m && k != (if dirs == [] then name else dirs[0]) ==> r[k] == m[k]
    decreases |dirs|
  {
    if dirs == [] then m[name := leaf]
    else
      var sub := if dirs[0] in m && m[dirs[0]].Dir? then m[dirs[0]].entries else map[];
      m[dirs[0] := Dir(Bind(sub, dirs[1..], name, leaf))]
  }

  /** The `for token in ...: pos = pos.get(token)` loop of `pull`. */
  method Walk(root: map<string, Node>, tokens: seq<string>) returns (r: Result<Node, WalkError>)
    ensures r == Resolve(Dir(root), tokens)
  {
    var pos := Dir(root);
    var i := 0;
    while i < |tokens|
      invariant 0 <= i <= |tokens|
      invariant Resolve(Dir(root), tokens) == Resolve(pos, tokens[i..])
    {
      assert tokens[i..][1..] == tokens[i + 1..];
      match pos {
        case File(_) =>
          return Failure(ThroughFile);
        case Dir(m) =>
          var token := tokens[i];
          if token !in m || !Truthy(m[token]) {
            return Failure(Missing);
          }
          pos := m[token];
      }
      i := i + 1;
    }
    return Success(pos);
  }

  /** The `for token in tokens[:-1]` loop of `push`, without its writes. */
  method PushWalk(root: map<string, Node>, dirs: seq<string>, makeDirs: Option<bool>) returns (r: Result<WalkEnd, WalkError>)
    ensures r == PushPlan(Dir(root), dirs, makeDirs)
  {
    var pos := Dir(root);
    var i := 0;
    while i < |dirs|
      invariant 0 <= i <= |dirs|
      invariant PushPlan(Dir(root), dirs, makeDirs) == PushPlan(pos, dirs[i..], makeDirs)
    {
      assert dirs[i..][1..] == dirs[i + 1..];
      match pos {
        case File(_) =>
          return Failure(ThroughFile);
        case Dir(m) =>
          var token := dirs[i];
          if token !in m || !Truthy(m[token]) {
            if makeDirs.None? {
              return Failure(MakeDirsUnset);
            } else if makeDirs.value {
              pos := Dir(map[]);
            } else {
              return Failure(Missing);
            }
          } else {
            pos := m[token];
          }
      }
      i := i + 1;
    }
    return Success(if pos.File? then AtFile else AtDir);
  }

  /**
   * Without `make_dirs`, push's walk over the directories is pull's walk: it fails exactly
   * where pull would, with the same error.
   */
  lemma {:induction false} PushWalkWithoutMakeDirs(pos: Node, dirs: seq<string>)
    ensures PushPlan(pos, dirs, Some(false)) ==
      match Resolve(pos, dirs)
      case Success(n) => Success(if n.File? then AtFile else AtDir)
      case Failure(e) => Failure(e)
    decreases |dirs|
  {
    if dirs != [] && pos.Dir? && dirs[0] in pos.entries && Truthy(pos.entries[dirs[0]]) {
      PushWalkWithoutMakeDirs(pos.entries[dirs[0]], dirs[1..]);
    }
  }

  /** With `make_dirs`, a missing directory never stops the walk. */
  lemma {:induction false} PushWalkWithMakeDirs(pos: Node, dirs: seq<string>)
    ensures PushPlan(pos, dirs, Some(true)) != Failure(Missing)
    ensures PushPlan(pos, dirs, Some(true)) != Failure(MakeDirsUnset)
    decreases |dirs|
  {
    if dirs != [] && pos.Dir? {
      var m := pos.entries;
      if dirs[0] in m && Truthy(m[dirs[0]]) {
        PushWalkWithMakeDirs(m[dirs[0]], dirs[1..]);
      } else {
        PushWalkWithMakeDirs(Dir(map[]), dirs[1..]);
      }
    }
  }

  /**
   * A push whose walk ends on a directory binds the path: pulling the same segments
   * afterwards reaches exactly the bound leaf.
   */
  lemma {:induction false} BindThenResolve(m: map<string, Node>, dirs: seq<string>, name: string, leaf: Node, makeDirs: Option<bool>)
    requires PushPlan(Dir(m), dirs, makeDirs) == Success(AtDir)
    requires Truthy(leaf)
    ensures Resolve(Dir(Bind(m, dirs, name, leaf)), dirs + [name]) == Success(leaf)
    decreases |dirs|
  {
    var r := Bind(m, dirs, name, leaf);
    if dirs == [] {
      assert dirs + [name] == [name];
      assert ([name])[1..] == [];
    } else {
      var t := dirs[0];
      var sub := if t in m && m[t].Dir? then m[t].entries else map[];
      if t in m && Truthy(m[t]) {
        assert PushPlan(m[t], dirs[1..], makeDirs) == Success(AtDir);
        assert m[t].Dir?;
        assert Dir(sub) == m[t];
      } else {
        assert makeDirs == Some(true);
        assert PushPlan(Dir(map[]), dirs[1..], makeDirs) == Success(AtDir);
        assert sub == map[];
      }
      BindThenResolve(sub, dirs[1..], name, leaf, makeDirs);
      var inner := Bind(sub, dirs[1..], name, leaf);
      assert r[t] == Dir(inner);
      assert (if dirs[1..] == [] then name else dirs[1..][0]) in inner;
      assert Truthy(r[t]);
      assert (dirs + [name])[0] == t;
      assert (dirs + [name])[1..] == dirs[1..] + [name];
    }
  }
  /** Two token paths with the same head are prefix-related exactly when their tails are. */
  lemma PrefixTail(p: seq<string>, q: seq<string>)
    requires p != [] && q != [] && p[0] == q[0]
    ensures p <= q <==> p[1..] <= q[1..]
  {
    assert p == [p[0]] + p[1..] && q == [q[0]] + q[1..];
    if p[1..] <= q[1..] {
      assert forall k :: 0 <= k < |p| ==> p[k] == q[k] by {
        forall k | 0 <= k < |p| ensures p[k] == q[k] {
          if k > 0 {
            assert p[k] == p[1..][k - 1] && q[k] == q[1..][k - 1];
          }
        }
      }
    }
  }

  /**
   * A push's binding disturbs no path beside it: every token path that is neither a prefix
   * of the bound path nor an extension of it resolves after the push as it did before. So
   * entries beside the path survive in every directory the walk passes through, and a
   * directory the walk creates holds nothing but the next segment of the path.
   */
  lemma {:induction false} BindFrame(m: map<string, Node>, dirs: seq<string>, name: string, leaf: Node,
                                     makeDirs: Option<bool>, p: seq<string>)
    requires PushPlan(Dir(m), dirs, makeDirs) == Success(AtDir)
    requires !(p <= dirs + [name]) && !(dirs + [name] <= p)
    ensures Resolve(Dir(Bind(m, dirs, name, leaf)), p) == Resolve(Dir(m), p)
    decreases |dirs|
  {
    var path := dirs + [name];
    var r := Bind(m, dirs, name, leaf);
    assert p != [];
    if p[0] != path[0] {
      assert p[0] != (if dirs == [] then name else dirs[0]);
    } else if dirs == [] {
      assert false;
    } else {
      var t := dirs[0];
      assert path[0] == t && path[1..] == dirs[1..] + [name];
      PrefixTail(p, path);
      PrefixTail(path, p);
      var sub := if t in m && m[t].Dir? then m[t].entries else map[];
      if t in m && Truthy(m[t]) {
        assert PushPlan(m[t], dirs[1..], makeDirs) == Success(AtDir);
        assert m[t].Dir?;
        assert Dir(sub) == m[t];
      } else {
        assert makeDirs == Some(true);
        assert PushPlan(Dir(map[]), dirs[1..], makeDirs) == Success(AtDir);
        assert sub == map[];
      }
      BindFrame(sub, dirs[1..], name, leaf, makeDirs, p[1..]);
      var inner := Bind(sub, dirs[1..], name, leaf);
      assert r[t] == Dir(inner);
      assert (if dirs[1..] == [] then name else dirs[1..][0]) in inner;
      assert Truthy(r[t]);
    }
  }
}

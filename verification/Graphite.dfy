/** The stack order that Graphite metadata gives (vcs/graphite.go): the chain
    from the current branch down to trunk, then the branches above it in
    name-ordered preorder. */
module Graphite {
  import opened Records

  // ---- Names and their order ----

  predicate Less(a: string, b: string) {
    b != "" && (a == "" || a[0] < b[0] || (a[0] == b[0] && Less(a[1..], b[1..])))
  }

  lemma {:induction false} LessTotal(a: string, b: string)
    ensures Less(a, b) || a == b || Less(b, a)
    ensures !(Less(a, b) && Less(b, a)) && !Less(a, a)
  {
    if a != "" && b != "" {
      LessTotal(a[1..], b[1..]);
      if a[0] == b[0] && a[1..] == b[1..] {
        assert a == [a[0]] + a[1..];
        assert b == [b[0]] + b[1..];
      }
    }
    if a != "" { LessTotal(a[1..], a[1..]); }
  }

  lemma {:induction false} LessTransitive(a: string, b: string, c: string)
    requires Less(a, b) && Less(b, c)
    ensures Less(a, c)
  {
    if a != "" && a[0] == b[0] == c[0] { LessTransitive(a[1..], b[1..], c[1..]); }
  }

  predicate Ascending(names: seq<string>) {
    forall i, j :: 0 <= i < j < |names| ==> Less(names[i], names[j])
  }

  function Insert(names: seq<string>, x: string): seq<string> {
    if names == [] then [x]
    else if Less(x, names[0]) then [x] + names
    else [names[0]] + Insert(names[1..], x)
  }

  lemma {:induction false} InsertKeepsOrder(names: seq<string>, x: string)
    requires Ascending(names) && x !in names
    ensures Ascending(Insert(names, x))
    ensures forall y :: y in Insert(names, x) <==> y in names || y == x
  {
    if names != [] {
      var rest := names[1..];
      assert names == [names[0]] + rest;
      LessTotal(x, names[0]);
      if Less(x, names[0]) {
        forall j | 0 < j < |names| ensures Less(x, names[j]) {
          LessTransitive(x, names[0], names[j]);
        }
      } else {
        InsertKeepsOrder(rest, x);
        var inserted := Insert(rest, x);
        forall j | 0 <= j < |inserted| ensures Less(names[0], inserted[j]) {
          assert inserted[j] in inserted;
        }
      }
    }
  }

  method SortStrings(names: seq<string>) returns (sorted: seq<string>)
    requires Distinct(names)
    ensures Ascending(sorted)
    ensures forall x :: x in sorted <==> x in names
  {
    sorted := [];
    for i := 0 to |names|
      invariant Ascending(sorted)
      invariant forall x :: x in sorted <==> x in names[..i]
    {
      assert names[..i + 1] == names[..i] + [names[i]];
      InsertKeepsOrder(sorted, names[i]);
      sorted := Insert(sorted, names[i]);
    }
    assert names[..|names|] == names;
  }

  // ---- Metadata: each tracked branch and its parent ----

  type Meta = map<string, string>

  predicate IsChild(meta: Meta, b: string, node: string) { b in meta && meta[b] == node }

  /** The branches with this parent, in name order, whatever order the map is
      read in. */
  method Children(meta: Meta, node: string) returns (children: seq<string>)
    ensures Ascending(children)
    ensures forall b :: b in children <==> IsChild(meta, b, node)
  {
    var rest := meta.Keys;
    var found: seq<string> := [];
    while rest != {}
      invariant rest <= meta.Keys && Distinct(found)
      invariant forall b :: b in found <==> b in meta.Keys - rest && meta[b] == node
      decreases |rest|
    {
      var b :| b in rest;
      rest := rest - {b};
      if meta[b] == node {
        found := found + [b];
      }
    }
    children := SortStrings(found);
  }

  // ---- What the order should be ----

  /** A parent walk from `current` that has come to `end`: each branch's parent is
      the next one, and trunk is not among them. */
  ghost predicate Walk(meta: Meta, trunk: string, current: string, chain: seq<string>, end: string) {
    && current == (if chain == [] then end else chain[0])
    && (forall i :: 0 <= i < |chain| ==> chain[i] != trunk && chain[i] in meta && meta[chain[i]] != "")
    && (forall i, j :: 0 <= i < j < |chain| && j == i + 1 ==> meta[chain[i]] == chain[j])
    && (chain != [] ==> meta[chain[|chain| - 1]] == end)
  }

  ghost predicate IsChain(meta: Meta, trunk: string, current: string, chain: seq<string>) {
    Walk(meta, trunk, current, chain, trunk)
  }

  ghost predicate ReachesTrunk(meta: Meta, trunk: string, current: string) {
    exists chain :: IsChain(meta, trunk, current, chain)
  }

  /** A way up from `node`, child by child. */
  predicate IsPath(meta: Meta, node: string, path: seq<string>) {
    && path != [] && IsChild(meta, path[0], node)
    && forall i :: 0 < i < |path| ==> IsChild(meta, path[i], path[i - 1])
  }

  function Last(path: seq<string>): string
    requires path != []
  {
    path[|path| - 1]
  }

  ghost predicate Descends(meta: Meta, d: string, node: string) {
    exists path :: IsPath(meta, node, path) && Last(path) == d
  }

  /** Preorder with siblings in name order is the lexicographic order of paths. */
  predicate PathLess(p: seq<string>, q: seq<string>) {
    q != [] && (p == [] || Less(p[0], q[0]) || (p[0] == q[0] && PathLess(p[1..], q[1..])))
  }

  predicate Preorder(paths: seq<seq<string>>) {
    forall i, j :: 0 <= i < j < |paths| ==> PathLess(paths[i], paths[j])
  }

  ghost predicate Covers(meta: Meta, node: string, done: seq<string>, out: seq<string>, paths: seq<seq<string>>) {
    && |out| == |paths|
    && (forall i :: 0 <= i < |out| ==>
      IsPath(meta, node, paths[i]) && paths[i][0] in done && Last(paths[i]) == out[i])
    && (forall p :: IsPath(meta, node, p) && p[0] in done ==> p in paths)
  }

  /** `out` lists, each once and by its only path, the descendants of `node` that
      are in or above the children `done`, in name-ordered preorder. */
  ghost predicate Lists(meta: Meta, node: string, done: seq<string>, out: seq<string>, paths: seq<seq<string>>) {
    Covers(meta, node, done, out, paths) && Preorder(paths) && Distinct(out)
  }

  function Under(c: string, paths: seq<seq<string>>): (r: seq<seq<string>>)
    ensures |r| == |paths| && forall i :: 0 <= i < |r| ==> r[i] == [c] + paths[i]
  {
    seq(|paths|, i requires 0 <= i < |paths| => [c] + paths[i])
  }

  function WithChild(c: string, paths: seq<seq<string>>): seq<seq<string>> { [[c]] + Under(c, paths) }

  ghost predicate AllChildren(meta: Meta, node: string, children: seq<string>) {
    forall b :: b in children <==> IsChild(meta, b, node)
  }

  lemma PathBelow(meta: Meta, node: string, c: string, path: seq<string>)
    requires IsChild(meta, c, node) && IsPath(meta, c, path)
    ensures IsPath(meta, node, [c] + path) && Last([c] + path) == Last(path)
  {
    var p := [c] + path;
    forall i | 0 < i < |p| ensures IsChild(meta, p[i], p[i - 1]) {
      if i > 1 { assert IsChild(meta, path[i - 1], path[i - 2]); }
    }
  }

  lemma PathRest(meta: Meta, node: string, path: seq<string>)
    requires IsPath(meta, node, path) && |path| > 1
    ensures IsPath(meta, path[0], path[1..]) && path == [path[0]] + path[1..]
  {
    var rest := path[1..];
    forall i | 0 < i < |rest| ensures IsChild(meta, rest[i], rest[i - 1]) {
      assert IsChild(meta, path[i + 1], path[i]);
    }
  }

  lemma PathLessCons(c: string, p: seq<string>, q: seq<string>)
    ensures PathLess([c] + p, [c] + q) <==> PathLess(p, q)
  {
    LessTotal(c, c);
    assert ([c] + p)[1..] == p && ([c] + q)[1..] == q;
  }

  lemma PreorderUnder(c: string, paths: seq<seq<string>>)
    requires Preorder(paths) && forall i :: 0 <= i < |paths| ==> paths[i] != []
    ensures Preorder(WithChild(c, paths))
  {
    var all := WithChild(c, paths);
    forall i, j | 0 <= i < j < |all| ensures PathLess(all[i], all[j]) {
      if i == 0 {
        PathLessCons(c, [], paths[j - 1]);
        assert [c] + [] == [c];
      } else {
        PathLessCons(c, paths[i - 1], paths[j - 1]);
      }
    }
  }

  /** One more child and what is above it. */
  lemma CoversMore(meta: Meta, node: string, done: seq<string>, out: seq<string>, paths: seq<seq<string>>,
                   c: string, above: seq<string>, children: seq<string>, ways: seq<seq<string>>)
    requires Covers(meta, node, done, out, paths)
    requires IsChild(meta, c, node) && AllChildren(meta, c, children)
    requires Covers(meta, c, children, above, ways)
    ensures Covers(meta, node, done + [c], out + ([c] + above), paths + WithChild(c, ways))
  {
    var all := paths + WithChild(c, ways);
    var names := out + ([c] + above);
    forall i | 0 <= i < |names|
      ensures IsPath(meta, node, all[i]) && all[i][0] in done + [c] && Last(all[i]) == names[i]
    {
      if i < |out| {
        assert all[i] == paths[i];
      } else if i > |out| {
        PathBelow(meta, node, c, ways[i - |out| - 1]);
      }
    }
    forall p | IsPath(meta, node, p) && p[0] in done + [c] ensures p in all {
      if p[0] in done {
        assert p in paths;
      } else if |p| == 1 {
        assert all[|paths|] == p;
      } else {
        PathRest(meta, node, p);
        assert p[1..] in ways;
        var k :| 0 <= k < |ways| && ways[k] == p[1..];
        assert all[|paths| + 1 + k] == p;
      }
    }
  }

  lemma PreorderMore(meta: Meta, node: string, done: seq<string>, out: seq<string>, paths: seq<seq<string>>,
                     c: string, ways: seq<seq<string>>)
    requires Covers(meta, node, done, out, paths) && Preorder(paths) && Preorder(ways)
    requires forall i :: 0 <= i < |ways| ==> ways[i] != []
    requires forall b :: b in done ==> Less(b, c)
    ensures Preorder(paths + WithChild(c, ways))
  {
    PreorderUnder(c, ways);
    var more := WithChild(c, ways);
    var all := paths + more;
    forall i, j | 0 <= i < j < |all| ensures PathLess(all[i], all[j]) {
      if j < |paths| {
        assert PathLess(paths[i], paths[j]);
      } else if i < |paths| {
        assert all[i][0] in done && more[j - |paths|][0] == c;
      } else {
        assert PathLess(more[i - |paths|], more[j - |paths|]);
      }
    }
  }

  // ---- The walks ----

  datatype Result =
    | Ok(order: seq<string>)
    | Cycle(branch: string)
    | Untracked(branch: string)
    | NoParent(branch: string)

  /** The visited map that both walks share. */
  class Visited {
    var seen: set<string>

    constructor ()
      ensures seen == {}
    {
      seen := {};
    }

    method Mark(b: string)
      modifies this
      ensures seen == old(seen) + {b}
    {
      seen := seen + {b};
    }
  }

  /** The walk up from `root` meets the walk down, or itself. */
  ghost predicate Doomed(meta: Meta, root: string, down: set<string>) {
    exists d :: (d in down || d == root) && Descends(meta, d, root)
  }

  ghost predicate FromRoot(meta: Meta, root: string, b: string) {
    b == root || Descends(meta, b, root)
  }

  /** What the walk up has added to the branches of the walk down has a parent
      that it came from. */
  ghost predicate CameFrom(meta: Meta, root: string, down: set<string>, seen: set<string>) {
    forall v :: v in seen - down ==> v in meta && (meta[v] == root || meta[v] in seen)
  }

  ghost predicate Met(meta: Meta, node: string, down: set<string>, seen: set<string>, children: seq<string>) {
    forall v :: v in seen - down && IsChild(meta, v, node) ==> v in children
  }

  ghost predicate ListsAll(meta: Meta, node: string, out: seq<string>, paths: seq<seq<string>>) {
    exists children :: AllChildren(meta, node, children) && Lists(meta, node, children, out, paths)
  }

  ghost predicate Grew(meta: Meta, node: string, before: set<string>, after: set<string>, out: seq<string>) {
    && (forall b :: b in after <==> b in before || b in out)
    && (forall b :: b in out ==> b !in before && b in meta && (meta[b] == node || meta[b] in out))
  }

  /** Where the walk up from `node` is, after the children `done`. */
  ghost predicate Walked(meta: Meta, node: string, root: string, down: set<string>, start: set<string>,
                         seen: set<string>, done: seq<string>, out: seq<string>, paths: seq<seq<string>>)
  {
    && CameFrom(meta, root, down, seen)
    && (Doomed(meta, root, down) || Met(meta, node, down, seen, done))
    && Grew(meta, node, start, seen, out)
    && Lists(meta, node, done, out, paths)
  }

  lemma WalkedMore(meta: Meta, node: string, root: string, down: set<string>, start: set<string>, before: set<string>,
                   done: seq<string>, out: seq<string>, paths: seq<seq<string>>,
                   c: string, above: seq<string>, ways: seq<seq<string>>, after: set<string>)
    requires Walked(meta, node, root, down, start, before, done, out, paths)
    requires node == root || node in before
    requires IsChild(meta, c, node) && c !in before && forall b :: b in done ==> Less(b, c)
    requires ListsAll(meta, c, above, ways) && Grew(meta, c, before + {c}, after, above)
    ensures Walked(meta, node, root, down, start, after, done + [c], out + ([c] + above), paths + WithChild(c, ways))
  {
    MetAfter(meta, root, node, down, before, c, above, ways, done, after);
    GrewMore(meta, node, start, before, out, c, above, after);
    ListsMore(meta, node, done, out, paths, c, above, ways);
  }

  ghost predicate MayClimb(meta: Meta, node: string, root: string, down: set<string>, seen: set<string>) {
    && FromRoot(meta, root, node) && (node == root || node in seen)
    && down <= seen && CameFrom(meta, root, down, seen)
    && (Doomed(meta, root, down) || Met(meta, node, down, seen, []))
  }

  lemma WalkedNothing(meta: Meta, node: string, root: string, down: set<string>, seen: set<string>)
    requires MayClimb(meta, node, root, down, seen)
    ensures Walked(meta, node, root, down, seen, seen, [], [], [])
  {
  }

  lemma WalkedAll(meta: Meta, node: string, root: string, down: set<string>, start: set<string>, seen: set<string>,
                  children: seq<string>, out: seq<string>, paths: seq<seq<string>>)
    requires Walked(meta, node, root, down, start, seen, children, out, paths) && AllChildren(meta, node, children)
    ensures ListsAll(meta, node, out, paths) && Grew(meta, node, start, seen, out)
  {
  }

  lemma ClimbOrDoomed(meta: Meta, node: string, root: string, down: set<string>, start: set<string>, seen: set<string>,
                      done: seq<string>, out: seq<string>, paths: seq<seq<string>>, c: string)
    requires Walked(meta, node, root, down, start, seen, done, out, paths) && MayClimb(meta, node, root, down, start)
    requires start <= seen && IsChild(meta, c, node) && c !in done
    ensures c in seen ==> Doomed(meta, root, down)
    ensures c !in seen ==> MayClimb(meta, c, root, down, seen + {c})
    ensures c !in seen ==> |meta.Keys - (seen + {c})| < |meta.Keys - start|
  {
    ChildFromRoot(meta, root, node, c);
    if c !in seen {
      NoneMetAbove(meta, root, node, down, seen, c);
      FewerLeft(meta, start, seen + {c}, c);
    }
  }

  method UpstackBranches(meta: Meta, node: string, visited: Visited, ghost root: string, ghost down: set<string>)
    returns (r: Result, ghost paths: seq<seq<string>>)
    requires MayClimb(meta, node, root, down, visited.seen)
    modifies visited
    ensures r.Ok? || r.Cycle?
    ensures old(visited.seen) <= visited.seen
    ensures r.Ok? ==> ListsAll(meta, node, r.order, paths) && Grew(meta, node, old(visited.seen), visited.seen, r.order)
    ensures !r.Ok? ==> Doomed(meta, root, down)
    decreases |meta.Keys - visited.seen|
  {
    var children := Children(meta, node);
    var out: seq<string> := [];
    paths := [];
    ghost var start := visited.seen;
    WalkedNothing(meta, node, root, down, start);
    for i := 0 to |children|
      invariant start <= visited.seen
      invariant Walked(meta, node, root, down, start, visited.seen, children[..i], out, paths)
    {
      var c := children[i];
      ghost var before, done := visited.seen, children[..i];
      NotEarlier(children, i);
      ClimbOrDoomed(meta, node, root, down, start, before, done, out, paths, c);
      if c in visited.seen {
        return Cycle(c), [];
      }
      visited.Mark(c);
      var above, ways := UpstackBranches(meta, c, visited, root, down);
      if !above.Ok? {
        return above, [];
      }
      WalkedMore(meta, node, root, down, start, before, done, out, paths, c, above.order, ways, visited.seen);
      out := out + ([c] + above.order);
      paths := paths + WithChild(c, ways);
    }
    assert children[..|children|] == children;
    WalkedAll(meta, node, root, down, start, visited.seen, children, out, paths);
    r := Ok(out);
  }

  lemma NotEarlier(names: seq<string>, i: nat)
    requires Ascending(names) && i < |names|
    ensures names[i] !in names[..i] && forall b :: b in names[..i] ==> Less(b, names[i])
    ensures names[..i + 1] == names[..i] + [names[i]]
  {
    LessTotal(names[i], names[i]);
  }

  lemma FewerLeft(meta: Meta, before: set<string>, after: set<string>, c: string)
    requires before <= after && c in meta && c !in before && c in after
    ensures |meta.Keys - after| < |meta.Keys - before|
  {
    assert meta.Keys - after <= meta.Keys - before - {c};
    Fewer(meta.Keys - after, meta.Keys - before - {c});
  }

  lemma {:induction false} Fewer(a: set<string>, b: set<string>)
    requires a <= b
    ensures |a| <= |b|
    decreases a
  {
    if a != {} {
      var x :| x in a;
      Fewer(a - {x}, b - {x});
    }
  }

  lemma ChildFromRoot(meta: Meta, root: string, node: string, c: string)
    requires FromRoot(meta, root, node) && IsChild(meta, c, node)
    ensures Descends(meta, c, root)
  {
    if node == root {
      assert IsPath(meta, root, [c]) && Last([c]) == c;
    } else {
      var path :| IsPath(meta, root, path) && Last(path) == node;
      assert IsPath(meta, root, path + [c]) && Last(path + [c]) == c;
    }
  }

  lemma NoneMetAbove(meta: Meta, root: string, node: string, down: set<string>, seen: set<string>, c: string)
    requires CameFrom(meta, root, down, seen) && (node == root || node in seen)
    requires IsChild(meta, c, node) && c !in seen && Descends(meta, c, root)
    ensures CameFrom(meta, root, down, seen + {c})
    ensures Doomed(meta, root, down) || Met(meta, c, down, seen + {c}, [])
  {
  }

  lemma MetAfter(meta: Meta, root: string, node: string, down: set<string>, before: set<string>, c: string,
                 above: seq<string>, ways: seq<seq<string>>, done: seq<string>, after: set<string>)
    requires CameFrom(meta, root, down, before) && (node == root || node in before)
    requires IsChild(meta, c, node) && c !in before
    requires Doomed(meta, root, down) || Met(meta, node, down, before, done)
    requires ListsAll(meta, c, above, ways) && Grew(meta, c, before + {c}, after, above)
    ensures CameFrom(meta, root, down, after)
    ensures Doomed(meta, root, down) || Met(meta, node, down, after, done + [c])
  {
    if node == root && (node == c || node in above) {
      AboveDescends(meta, node, c, above, ways, node);
    }
  }

  lemma AboveDescends(meta: Meta, node: string, c: string, above: seq<string>, ways: seq<seq<string>>, d: string)
    requires IsChild(meta, c, node) && ListsAll(meta, c, above, ways) && (d == c || d in above)
    ensures Descends(meta, d, node)
  {
    if d == c {
      assert IsPath(meta, node, [c]) && Last([c]) == c;
    } else {
      var i :| 0 <= i < |above| && above[i] == d;
      PathBelow(meta, node, c, ways[i]);
    }
  }

  lemma GrewMore(meta: Meta, node: string, start: set<string>, before: set<string>, out: seq<string>, c: string,
                 above: seq<string>, after: set<string>)
    requires Grew(meta, node, start, before, out) && IsChild(meta, c, node) && c !in before
    requires Grew(meta, c, before + {c}, after, above)
    ensures Grew(meta, node, start, after, out + ([c] + above))
    ensures c !in out && c !in above && forall b :: b in above ==> b !in out
  {
    forall b ensures b in out + ([c] + above) <==> b in out || b == c || b in above {
    }
  }

  lemma DistinctMore(out: seq<string>, c: string, above: seq<string>)
    requires Distinct(out) && Distinct(above)
    requires c !in out && c !in above && forall b :: b in above ==> b !in out
    ensures Distinct(out + ([c] + above))
  {
    var all := out + ([c] + above);
    forall i, j | 0 <= i < j < |all| ensures all[i] != all[j] {
      if i < |out| {
        assert all[i] in out;
        if j > |out| { assert all[j] in above; }
      } else if i == |out| {
        assert all[j] in above;
      }
    }
  }

  lemma ListsMore(meta: Meta, node: string, done: seq<string>, out: seq<string>, paths: seq<seq<string>>,
                  c: string, above: seq<string>, ways: seq<seq<string>>)
    requires Lists(meta, node, done, out, paths) && ListsAll(meta, c, above, ways)
    requires IsChild(meta, c, node) && forall b :: b in done ==> Less(b, c)
    requires c !in out && c !in above && forall b :: b in above ==> b !in out
    ensures Lists(meta, node, done + [c], out + ([c] + above), paths + WithChild(c, ways))
  {
    var children :| AllChildren(meta, c, children) && Lists(meta, c, children, above, ways);
    CoversMore(meta, node, done, out, paths, c, above, children, ways);
    PreorderMore(meta, node, done, out, paths, c, ways);
    DistinctMore(out, c, above);
  }

  // ---- The walk down ----

  lemma WalkStep(meta: Meta, trunk: string, current: string, chain: seq<string>, end: string, i: nat)
    requires Walk(meta, trunk, current, chain, end) && i < |chain|
    ensures chain[0] == current && chain[i] != trunk && chain[i] in meta && meta[chain[i]] != ""
    ensures i + 1 < |chain| ==> meta[chain[i]] == chain[i + 1] && chain[i + 1] != trunk
    ensures i + 1 == |chain| ==> meta[chain[i]] == end
  {
  }

  /** A walk that reaches trunk goes the way of any other, further. */
  lemma {:induction false} OneWalk(meta: Meta, trunk: string, current: string, chain: seq<string>, end: string, whole: seq<string>)
    requires Walk(meta, trunk, current, chain, end) && end != trunk && IsChain(meta, trunk, current, whole)
    ensures |chain| < |whole| && whole[|chain|] == end && chain == whole[..|chain|]
    decreases |chain|
  {
    if chain != [] {
      var n := |chain| - 1;
      OneWalk(meta, trunk, current, chain[..n], chain[n], whole);
      assert chain == chain[..n] + [chain[n]];
      WalkStep(meta, trunk, current, chain, end, n);
      WalkStep(meta, trunk, current, whole, trunk, n);
      assert whole[..n + 1] == whole[..n] + [whole[n]];
    }
  }

  lemma {:induction false} ChainRepeatsNothing(meta: Meta, trunk: string, current: string, whole: seq<string>, i: nat, j: nat)
    requires IsChain(meta, trunk, current, whole) && i < j < |whole|
    ensures whole[i] != whole[j]
    decreases |whole| - j
  {
    WalkStep(meta, trunk, current, whole, trunk, i);
    WalkStep(meta, trunk, current, whole, trunk, j);
    if j + 1 < |whole| {
      ChainRepeatsNothing(meta, trunk, current, whole, i + 1, j + 1);
    }
  }

  lemma ChainIsDistinct(meta: Meta, trunk: string, current: string, whole: seq<string>)
    requires IsChain(meta, trunk, current, whole)
    ensures Distinct(whole)
  {
    forall i: nat, j: nat | i < j < |whole| ensures whole[i] != whole[j] {
      ChainRepeatsNothing(meta, trunk, current, whole, i, j);
    }
  }

  /** The three ways in which the parent walk fails to reach trunk. */
  lemma StuckBelowTrunk(meta: Meta, trunk: string, current: string, chain: seq<string>, b: string)
    requires Walk(meta, trunk, current, chain, b) && b != trunk
    requires b in chain || b !in meta || meta[b] == ""
    ensures !ReachesTrunk(meta, trunk, current)
  {
    forall whole | IsChain(meta, trunk, current, whole) ensures false {
      OneWalk(meta, trunk, current, chain, b, whole);
      if b in chain {
        var i :| 0 <= i < |chain| && chain[i] == b;
        ChainRepeatsNothing(meta, trunk, current, whole, i, |chain|);
      }
    }
  }

  // ---- When the walk up is doomed ----

  lemma {:induction false} AncestorsDescend(meta: Meta, trunk: string, current: string, chain: seq<string>, j: nat)
    requires IsChain(meta, trunk, current, chain) && j < |chain| && Descends(meta, chain[j], current)
    ensures Descends(meta, trunk, current)
    decreases |chain| - j
  {
    var path :| IsPath(meta, current, path) && Last(path) == chain[j];
    var n := |path| - 1;
    if j + 1 < |chain| { ChainRepeatsNothing(meta, trunk, current, chain, 0, j + 1); }
    WalkStep(meta, trunk, current, chain, trunk, 0);
    WalkStep(meta, trunk, current, chain, trunk, j);
    assert meta[chain[j]] != current;
    assert n > 0 && IsChild(meta, path[n], path[n - 1]);
    assert IsPath(meta, current, path[..n]) && Last(path[..n]) == meta[chain[j]];
    if j + 1 < |chain| { AncestorsDescend(meta, trunk, current, chain, j + 1); }
  }

  lemma DoomedIffTrunkDescends(meta: Meta, trunk: string, current: string, chain: seq<string>, down: set<string>)
    requires IsChain(meta, trunk, current, chain) && forall b :: b in down <==> b in chain
    ensures Doomed(meta, current, down) <==> Descends(meta, trunk, current)
  {
    if Doomed(meta, current, down) && chain != [] {
      var d :| (d in down || d == current) && Descends(meta, d, current);
      var j :| 0 <= j < |chain| && chain[j] == d;
      AncestorsDescend(meta, trunk, current, chain, j);
    }
    if Descends(meta, trunk, current) && chain != [] {
      var path :| IsPath(meta, current, path) && Last(path) == trunk;
      var top := Last(chain);
      WalkStep(meta, trunk, current, chain, trunk, |chain| - 1);
      PathMore(meta, current, path, top);
      assert top in down;
    }
  }

  lemma ListedAll(meta: Meta, node: string, out: seq<string>, paths: seq<seq<string>>, path: seq<string>) returns (i: nat)
    requires ListsAll(meta, node, out, paths) && IsPath(meta, node, path)
    ensures |out| == |paths| && Distinct(out)
    ensures i < |paths| && paths[i] == path && out[i] == Last(path)
  {
    assert path in paths;
    i :| 0 <= i < |paths| && paths[i] == path;
  }

  lemma PathTwice(meta: Meta, node: string, path: seq<string>)
    requires IsPath(meta, node, path) && Last(path) == node
    ensures IsPath(meta, node, path + path) && Last(path + path) == node
  {
    var twice := path + path;
    forall i | 0 < i < |twice| ensures IsChild(meta, twice[i], twice[i - 1]) {
      if i == |path| {
        assert twice[i] == path[0] && twice[i - 1] == Last(path);
      } else if i > |path| {
        assert IsChild(meta, path[i - |path|], path[i - |path| - 1]);
      }
    }
  }

  lemma PathMore(meta: Meta, node: string, path: seq<string>, c: string)
    requires IsPath(meta, node, path) && IsChild(meta, c, Last(path))
    ensures IsPath(meta, node, path + [c]) && Last(path + [c]) == c
  {
  }

  lemma ListedIsNotDoomed(meta: Meta, current: string, down: set<string>, out: seq<string>, paths: seq<seq<string>>)
    requires ListsAll(meta, current, out, paths) && forall b :: b in out ==> b !in down
    ensures !Doomed(meta, current, down)
  {
    forall d | (d in down || d == current) && Descends(meta, d, current) ensures false {
      var path :| IsPath(meta, current, path) && Last(path) == d;
      var i := ListedAll(meta, current, out, paths, path);
      if d !in down {
        var twice := path + path;
        PathTwice(meta, current, path);
        assert |twice| > |path|;
        var j := ListedAll(meta, current, out, paths, twice);
      }
    }
  }

  // ---- The stack ----

  function Reversed(s: seq<string>): seq<string> {
    if s == [] then [] else Reversed(s[1..]) + [s[0]]
  }

  /** Current's chain from its top down to current, and then exactly its
      descendants, each by its only path, in name-ordered preorder. */
  ghost predicate IsStack(meta: Meta, trunk: string, current: string, order: seq<string>,
                          chain: seq<string>, above: seq<string>, paths: seq<seq<string>>)
  {
    && IsChain(meta, trunk, current, chain)
    && ListsAll(meta, current, above, paths)
    && order == Reversed(chain) + above
  }

  method ReverseOf(chain: seq<string>) returns (ordered: seq<string>)
    ensures ordered == Reversed(chain)
  {
    ordered := [];
    var i := |chain|;
    while i > 0
      invariant 0 <= i <= |chain| && ordered == Reversed(chain[i..])
    {
      i := i - 1;
      assert chain[i..][0] == chain[i] && chain[i..][1..] == chain[i + 1..];
      ordered := ordered + [chain[i]];
    }
    assert chain[0..] == chain;
  }

  /** The parent walk, marking what it passes. */
  method WalkDown(meta: Meta, trunk: string, current: string, visited: Visited) returns (r: Result)
    requires visited.seen == {}
    modifies visited
    ensures r.Ok? <==> ReachesTrunk(meta, trunk, current)
    ensures r.Ok? ==> IsChain(meta, trunk, current, r.order) && forall v :: v in visited.seen <==> v in r.order
    ensures r.Untracked? ==> r.branch !in meta
    ensures r.NoParent? ==> r.branch in meta && meta[r.branch] == ""
  {
    var b, chain := current, [];
    while b != trunk
      invariant Walk(meta, trunk, current, chain, b)
      invariant forall v :: v in visited.seen <==> v in chain
      decreases |meta.Keys - visited.seen|
    {
      if b in visited.seen || b !in meta || meta[b] == "" {
        StuckBelowTrunk(meta, trunk, current, chain, b);
      }
      if b in visited.seen {
        return Cycle(b);
      }
      ghost var before := visited.seen;
      visited.Mark(b);
      if b !in meta {
        return Untracked(b);
      }
      if meta[b] == "" {
        return NoParent(b);
      }
      FewerLeft(meta, before, visited.seen, b);
      WalkMore(meta, trunk, current, chain, b);
      chain := chain + [b];
      b := meta[b];
    }
    assert IsChain(meta, trunk, current, chain);
    r := Ok(chain);
  }

  lemma WalkMore(meta: Meta, trunk: string, current: string, chain: seq<string>, b: string)
    requires Walk(meta, trunk, current, chain, b) && b != trunk && b in meta && meta[b] != ""
    ensures Walk(meta, trunk, current, chain + [b], meta[b])
  {
  }

  method StackBranches(meta: Meta, trunk: string, current: string)
    returns (r: Result, ghost chain: seq<string>, ghost above: seq<string>, ghost paths: seq<seq<string>>)
    ensures r.Ok? <==> ReachesTrunk(meta, trunk, current) && !Descends(meta, trunk, current)
    ensures r.Ok? ==> IsStack(meta, trunk, current, r.order, chain, above, paths)
    ensures r.Untracked? ==> r.branch !in meta
    ensures r.NoParent? ==> r.branch in meta && meta[r.branch] == ""
  {
    chain, above, paths := [], [], [];
    var visited := new Visited();
    r := WalkDown(meta, trunk, current, visited);
    if !r.Ok? {
      return;
    }
    chain := r.order;
    var ordered := ReverseOf(r.order);
    ghost var seen := visited.seen;
    DoomedIffTrunkDescends(meta, trunk, current, chain, seen);
    var desc;
    desc, paths := UpstackBranches(meta, current, visited, current, seen);
    if !desc.Ok? {
      return desc, chain, above, paths;
    }
    ListedIsNotDoomed(meta, current, seen, desc.order, paths);
    above := desc.order;
    r := Ok(ordered + desc.order);
  }

  // ---- What a stack is ----

  lemma {:induction false} ReversedAt(s: seq<string>)
    ensures |Reversed(s)| == |s|
    ensures forall k :: 0 <= k < |s| ==> Reversed(s)[k] == s[|s| - 1 - k]
  {
    if s != [] {
      ReversedAt(s[1..]);
    }
  }

  /** A stack that was found: no branch twice, exactly the chain and the
      descendants, and each parent before its child. */
  lemma StackOrderIsRight(meta: Meta, trunk: string, current: string, order: seq<string>,
                          chain: seq<string>, above: seq<string>, paths: seq<seq<string>>)
    requires IsStack(meta, trunk, current, order, chain, above, paths) && !Descends(meta, trunk, current)
    ensures Distinct(order)
    ensures forall b :: b in order <==> b in chain || Descends(meta, b, current)
    ensures forall i :: 0 <= i < |order| ==>
      order[i] in meta && (meta[order[i]] == trunk || meta[order[i]] in order[..i])
  {
    StackIsDistinct(meta, trunk, current, order, chain, above, paths);
    StackMembers(meta, trunk, current, order, chain, above, paths);
    forall i | 0 <= i < |order|
      ensures order[i] in meta && (meta[order[i]] == trunk || meta[order[i]] in order[..i])
    {
      if i < |Reversed(chain)| {
        ChainParentFirst(meta, trunk, current, order, chain, above, i);
      } else {
        AboveParentFirst(meta, trunk, current, order, chain, above, paths, i);
      }
    }
  }

  lemma ChainParentFirst(meta: Meta, trunk: string, current: string, order: seq<string>,
                         chain: seq<string>, above: seq<string>, i: nat)
    requires IsChain(meta, trunk, current, chain) && order == Reversed(chain) + above
    requires i < |Reversed(chain)|
    ensures order[i] in meta && (meta[order[i]] == trunk || meta[order[i]] in order[..i])
  {
    var n := |chain|;
    ReversedAt(chain);
    WalkStep(meta, trunk, current, chain, trunk, n - 1 - i);
    if i > 0 { assert order[..i][i - 1] == chain[n - i]; }
  }

  lemma AboveParentFirst(meta: Meta, trunk: string, current: string, order: seq<string>,
                         chain: seq<string>, above: seq<string>, paths: seq<seq<string>>, i: nat)
    requires IsStack(meta, trunk, current, order, chain, above, paths)
    requires |Reversed(chain)| <= i < |order|
    ensures order[i] in meta && (meta[order[i]] == trunk || meta[order[i]] in order[..i])
  {
    var n := |chain|;
    ReversedAt(chain);
    ParentComesFirst(meta, current, above, paths, i - n);
    var parent := meta[above[i - n]];
    if parent == current {
      if n > 0 { assert order[..i][n - 1] == current; }
    } else {
      var j :| 0 <= j < i - n && above[j] == parent;
      assert order[..i][n + j] == parent;
    }
  }

  lemma ParentComesFirst(meta: Meta, node: string, above: seq<string>, paths: seq<seq<string>>, i: nat)
    requires ListsAll(meta, node, above, paths) && i < |above|
    ensures above[i] in meta && (meta[above[i]] == node || exists j :: 0 <= j < i && above[j] == meta[above[i]])
  {
    var path := paths[i];
    if |path| > 1 {
      var front := path[..|path| - 1];
      assert IsChild(meta, path[|path| - 1], path[|path| - 2]);
      assert IsPath(meta, node, front);
      var j := ListedAll(meta, node, above, paths, front);
      FrontLess(path);
      if j > i { PathLessNotBoth(front, path); }
    }
  }

  lemma {:induction false} FrontLess(path: seq<string>)
    requires path != []
    ensures PathLess(path[..|path| - 1], path)
    decreases |path|
  {
    if |path| > 1 {
      FrontLess(path[1..]);
      assert path[..|path| - 1][1..] == path[1..][..|path| - 2];
    }
  }

  lemma {:induction false} PathLessNotBoth(p: seq<string>, q: seq<string>)
    ensures !(PathLess(p, q) && PathLess(q, p))
  {
    if p != [] && q != [] {
      LessTotal(p[0], q[0]);
      PathLessNotBoth(p[1..], q[1..]);
    }
  }

  lemma StackMembers(meta: Meta, trunk: string, current: string, order: seq<string>,
                     chain: seq<string>, above: seq<string>, paths: seq<seq<string>>)
    requires IsStack(meta, trunk, current, order, chain, above, paths)
    ensures forall b :: b in above <==> Descends(meta, b, current)
    ensures forall b :: b in Reversed(chain) <==> b in chain
  {
    ReversedAt(chain);
    forall b ensures b in above <==> Descends(meta, b, current) {
      if b in above {
        var i :| 0 <= i < |above| && above[i] == b;
        assert IsPath(meta, current, paths[i]) && Last(paths[i]) == b;
      }
      if Descends(meta, b, current) {
        var path :| IsPath(meta, current, path) && Last(path) == b;
        var i := ListedAll(meta, current, above, paths, path);
      }
    }
    forall b | b in chain ensures b in Reversed(chain) {
      var i :| 0 <= i < |chain| && chain[i] == b;
      assert Reversed(chain)[|chain| - 1 - i] == b;
    }
  }

  lemma StackIsDistinct(meta: Meta, trunk: string, current: string, order: seq<string>,
                        chain: seq<string>, above: seq<string>, paths: seq<seq<string>>)
    requires IsStack(meta, trunk, current, order, chain, above, paths) && !Descends(meta, trunk, current)
    ensures Distinct(order)
  {
    ReversedAt(chain);
    ChainIsDistinct(meta, trunk, current, chain);
    StackMembers(meta, trunk, current, order, chain, above, paths);
    DoomedIffTrunkDescends(meta, trunk, current, chain, set b | b in chain);
    forall i, j | 0 <= i < j < |order| ensures order[i] != order[j] {
      var n := |chain|;
      if i < n <= j {
        assert order[i] in chain && order[j] in above;
      } else if i >= n {
        assert order[i] == above[i - n] && order[j] == above[j - n];
      }
    }
  }
}

/**
 Whether a static file stays inside its mount once symlinks are followed (src/files.rs). `Resolve` is
 `canonicalize` on a file tree with links; `Slow` canonicalises the target and looks for the root as a
 prefix; `Contained` is the loop of the source, one `lstat` a component and no canonicalising until a
 component is a link.
 */
module Containment {
  import opened Util
  import opened Paths

  /** One component of a path; `.` and repeated slashes are gone already. */
  datatype Comp = Name(name: Bytes) | Up

  datatype Node = File | Dir | Link(absolute: bool, to: seq<Comp>)

  /** The places of a tree are lists of names from `/`. */
  type Place = seq<Bytes>

  type Tree = map<Place, Node>

  /** Everything in the tree lies in a directory of the tree. */
  ghost predicate Proper(t: Tree) {
    && [] in t && t[[]] == Dir
    && forall p {:trigger Parent(p)} :: p in t && p != [] ==> Parent(p) in t && t[Parent(p)] == Dir
  }

  function Parent(p: Place): Place {
    if p == [] then [] else p[..|p| - 1]
  }

  function Names(p: Place): seq<Comp> {
    seq(|p|, i requires 0 <= i < |p| => Name(p[i]))
  }

  /**
   Walk `todo` from the directory `at`, following every link, `links` of them at most. None is any of the
   errors: nothing there, a file where a directory is needed, too many links.
   */
  function Resolve(t: Tree, links: nat, at: Place, todo: seq<Comp>): Option<Place>
    decreases links, |todo|
  {
    if at !in t then None
    else if todo == [] then Some(at)
    else if t[at] != Dir then None
    else if todo[0].Up? then Resolve(t, links, Parent(at), todo[1..])
    else
      var next := at + [todo[0].name];
      if next !in t then None
      else if t[next].Link? then
        if links == 0 then None
        else Resolve(t, links - 1, if t[next].absolute then [] else at, t[next].to + todo[1..])
      else Resolve(t, links, next, todo[1..])
  }

  /** `std::fs::canonicalize`. */
  function Canonicalize(t: Tree, links: nat, path: seq<Comp>): Option<Place> {
    Resolve(t, links, [], path)
  }

  /** `std::fs::symlink_metadata`: links are followed to the last component and not through it. */
  function Lstat(t: Tree, links: nat, path: seq<Comp>): Option<Node> {
    if path == [] then if [] in t then Some(t[[]]) else None
    else
      var at := Canonicalize(t, links, path[..|path| - 1]);
      if at.None? || at.value !in t || t[at.value] != Dir then None
      else
        var last := path[|path| - 1];
        var place := if last.Up? then Parent(at.value) else at.value + [last.name];
        if place in t then Some(t[place]) else None
  }

  /** Where links lead the whole of `target`, if that is at or below `root`. */
  function Slow(t: Tree, links: nat, root: Place, target: seq<Comp>): Option<seq<Comp>> {
    var resolved := Canonicalize(t, links, target);
    if resolved.Some? && root <= resolved.value then Some(Names(resolved.value)) else None
  }

  method Contained(t: Tree, links: nat, root: Place, target: seq<Comp>) returns (r: Option<seq<Comp>>)
    ensures r == Fast(t, links, root, target)
  {
    if !(Names(root) <= target) {
      return None;
    }
    var relative := target[|root|..];
    var walked := Names(root);
    for k := 0 to |relative|
      invariant walked == Names(root) + relative[..k]
      invariant Walk(t, links, root, Names(root), relative) == Walk(t, links, root, walked, relative[k..])
    {
      assert relative[k..][0] == relative[k] && relative[k..][1..] == relative[k + 1..];
      assert walked + relative[k..] == target;
      walked := walked + [relative[k]];
      assert walked == Names(root) + relative[..k + 1];
      var found := Lstat(t, links, walked);
      if found.None? {
        return None;
      }
      if found.value.Link? {
        return Slow(t, links, root, target);
      }
    }
    assert walked == target && relative[|relative|..] == [];
    r := Some(target);
  }

  /** The verdict once `walked` has met no link and `rest` remains. */
  function Walk(t: Tree, links: nat, root: Place, walked: seq<Comp>, rest: seq<Comp>): Option<seq<Comp>>
    decreases |rest|
  {
    if rest == [] then Some(walked)
    else
      var found := Lstat(t, links, walked + [rest[0]]);
      if found.None? then None
      else if found.value.Link? then Slow(t, links, root, walked + rest)
      else Walk(t, links, root, walked + [rest[0]], rest[1..])
  }

  function Fast(t: Tree, links: nat, root: Place, target: seq<Comp>): Option<seq<Comp>> {
    if Names(root) <= target then Walk(t, links, root, Names(root), target[|root|..]) else None
  }

  // ----- The fast form refines the slow one -----

  /** A place that no link leads to: what `canonicalize` returns. */
  predicate Canonical(t: Tree, p: Place) {
    p in t && !t[p].Link?
  }

  lemma {:induction false} ParentsAreDirs(t: Tree, p: Place, n: nat)
    requires Proper(t) && p in t && n < |p|
    ensures p[..n] in t && t[p[..n]] == Dir
    decreases |p|
  {
    if n < |p| - 1 {
      ParentsAreDirs(t, Parent(p), n);
      assert Parent(p)[..n] == p[..n];
    }
  }

  /** A name that is no link is one step down. */
  lemma StepsDown(t: Tree, links: nat, at: Place, next: Place, todo: seq<Comp>)
    requires at in t && t[at] == Dir && next in t && !t[next].Link?
    requires todo != [] && todo[0].Name? && next == at + [todo[0].name]
    ensures Resolve(t, links, at, todo) == Resolve(t, links, next, todo[1..])
  {
  }

  /** From a place of the tree whose way down meets no link, the walk starts as if at that place. */
  lemma {:induction false} ResolveSkips(t: Tree, links: nat, p: Place, n: nat, rest: seq<Comp>)
    requires Proper(t) && Canonical(t, p) && n <= |p|
    ensures Resolve(t, links, p[..n], Names(p[n..]) + rest) == Resolve(t, links, p, rest)
    decreases |p| - n
  {
    if n == |p| {
      assert p[..n] == p && Names(p[n..]) + rest == rest;
    } else {
      var todo := Names(p[n..]) + rest;
      ParentsAreDirs(t, p, n);
      if n + 1 < |p| {
        ParentsAreDirs(t, p, n + 1);
      } else {
        assert p[..n + 1] == p;
      }
      assert todo[0] == Name(p[n]);
      assert todo[1..] == Names(p[n + 1..]) + rest;
      StepsDown(t, links, p[..n], p[..n + 1], todo);
      ResolveSkips(t, links, p, n + 1, rest);
    }
  }

  lemma CanonicalPrefix(t: Tree, links: nat, p: Place, rest: seq<Comp>)
    requires Proper(t) && Canonical(t, p)
    ensures Canonicalize(t, links, Names(p) + rest) == Resolve(t, links, p, rest)
    ensures Canonicalize(t, links, Names(p)) == Some(p)
  {
    assert p[0..] == p && p[..0] == [];
    ResolveSkips(t, links, p, 0, rest);
    ResolveSkips(t, links, p, 0, []);
    assert Names(p) + [] == Names(p);
  }

  lemma {:induction false} WalkIsSlow(t: Tree, links: nat, root: Place, at: Place, rest: Place)
    requires Proper(t) && Canonical(t, at) && root <= at
    ensures Walk(t, links, root, Names(at), Names(rest)) == Slow(t, links, root, Names(at) + Names(rest))
    decreases |rest|
  {
    CanonicalPrefix(t, links, at, Names(rest));
    if rest == [] {
      assert Names(at) + Names(rest) == Names(at);
    } else {
      var next := at + [rest[0]];
      assert Names(at) + [Name(rest[0])] == Names(next);
      assert (Names(at) + [Name(rest[0])])[..|at|] == Names(at);
      CanonicalPrefix(t, links, at, []);
      assert Names(rest)[0] == Name(rest[0]) && Names(rest)[1..] == Names(rest[1..]);
      assert Names(next) + Names(rest[1..]) == Names(at) + Names(rest);
      if Canonical(t, next) && t[at] == Dir {
        WalkIsSlow(t, links, root, next, rest[1..]);
      }
    }
  }

  /**
   The fast form is the slow one: below a canonical root, for a path of plain names, `contained` answers
   exactly what canonicalising the target and testing its prefix would.
   */
  lemma ContainedIsSlow(t: Tree, links: nat, root: Place, rel: Place)
    requires Proper(t) && Canonical(t, root)
    ensures Fast(t, links, root, Names(root + rel)) == Slow(t, links, root, Names(root + rel))
  {
    assert Names(root + rel) == Names(root) + Names(rel);
    assert Names(root + rel)[|root|..] == Names(rel);
    WalkIsSlow(t, links, root, root, rel);
  }

  // ----- What is served lies inside -----

  /** A place found by following links is one no link leads to. */
  lemma {:induction false} ResolvedIsCanonical(t: Tree, links: nat, at: Place, todo: seq<Comp>)
    requires Proper(t) && (at in t ==> !t[at].Link?)
    ensures var r := Resolve(t, links, at, todo); r.Some? ==> Canonical(t, r.value)
    decreases links, |todo|
  {
    if at in t && todo != [] && t[at] == Dir {
      if todo[0].Up? {
        ResolvedIsCanonical(t, links, Parent(at), todo[1..]);
      } else {
        var next := at + [todo[0].name];
        if next in t && !t[next].Link? {
          ResolvedIsCanonical(t, links, next, todo[1..]);
        } else if next in t && links > 0 {
          ResolvedIsCanonical(t, links - 1, if t[next].absolute then [] else at, t[next].to + todo[1..]);
        }
      }
    }
  }

  /** A segment as the path it is joined to reads it. */
  function Component(part: Bytes): Comp {
    if part == [DOT, DOT] then Up else Name(part)
  }

  function Joined(root: Place, parts: seq<Bytes>): seq<Comp> {
    Names(root) + seq(|parts|, i requires 0 <= i < |parts| => Component(parts[i]))
  }

  lemma NamesAreComponents(root: Place, parts: seq<Bytes>)
    requires forall i :: 0 <= i < |parts| ==> parts[i] != [DOT, DOT]
    ensures Joined(root, parts) == Names(root + parts)
  {
  }

  lemma SegmentsAreNames(root: Place, parts: seq<Bytes>, raw: Bytes, dotfiles: bool)
    requires Parts(raw, dotfiles) == Some(parts)
    ensures Joined(root, parts) == Names(root + parts)
  {
    PartsAreNames(raw, dotfiles);
    forall i | 0 <= i < |parts|
      ensures parts[i] != [DOT, DOT]
    {
      CleanIsPlain(parts[i], dotfiles);
    }
    NamesAreComponents(root, parts);
  }

  lemma SlowLiesInside(t: Tree, links: nat, root: Place, target: seq<Comp>)
    requires Proper(t)
    ensures var r := Slow(t, links, root, target);
      r.Some? ==> exists p ::
        r == Some(Names(p)) && root <= p && Canonical(t, p) && Canonicalize(t, links, target) == Some(p)
  {
    ResolvedIsCanonical(t, links, [], target);
    if Slow(t, links, root, target).Some? {
      assert Slow(t, links, root, target) == Some(Names(Canonicalize(t, links, target).value));
    }
  }

  /**
   For every request path and every tree, what is served is the file the path leads to, and it is found
   only inside the root: the segments of the path admit no `..`, so the fast form is exact.
   */
  lemma ServedLiesInside(t: Tree, links: nat, root: Place, parts: seq<Bytes>, raw: Bytes, dotfiles: bool)
    requires Proper(t) && Canonical(t, root) && Parts(raw, dotfiles) == Some(parts)
    ensures var r := Fast(t, links, root, Joined(root, parts));
      && r == Slow(t, links, root, Joined(root, parts))
      && (r.Some? ==> exists p ::
           r == Some(Names(p)) && root <= p && Canonical(t, p)
             && Canonicalize(t, links, Joined(root, parts)) == Some(p))
  {
    SegmentsAreNames(root, parts, raw, dotfiles);
    ContainedIsSlow(t, links, root, parts);
    SlowLiesInside(t, links, root, Joined(root, parts));
  }

  // ----- Paths with `..` -----

  /** The walk from `walked` over `rest` finds something at every component and no link. */
  predicate MeetsNoLink(t: Tree, links: nat, walked: seq<Comp>, rest: seq<Comp>)
    decreases |rest|
  {
    rest == [] ||
    (var found := Lstat(t, links, walked + [rest[0]]);
     found.Some? && !found.value.Link? && MeetsNoLink(t, links, walked + [rest[0]], rest[1..]))
  }

  /** So far the walk has met no link: any way on from `walked` is one from the place it leads to. */
  ghost predicate LeadsTo(t: Tree, links: nat, walked: seq<Comp>, rest: seq<Comp>, at: Place) {
    && Canonical(t, at)
    && forall n :: 0 <= n <= |rest| ==> Canonicalize(t, links, walked + rest[..n]) == Resolve(t, links, at, rest[..n])
  }

  lemma LeadsOn(t: Tree, links: nat, walked: seq<Comp>, rest: seq<Comp>, at: Place, next: Place)
    requires Proper(t) && LeadsTo(t, links, walked, rest, at) && rest != [] && t[at] == Dir && Canonical(t, next)
    requires next == if rest[0].Up? then Parent(at) else at + [rest[0].name]
    ensures LeadsTo(t, links, walked + [rest[0]], rest[1..], next)
  {
    forall n | 0 <= n <= |rest[1..]|
      ensures Canonicalize(t, links, walked + [rest[0]] + rest[1..][..n]) == Resolve(t, links, next, rest[1..][..n])
    {
      assert walked + [rest[0]] + rest[1..][..n] == walked + rest[..n + 1];
      assert rest[..n + 1][0] == rest[0] && rest[..n + 1][1..] == rest[1..][..n];
    }
  }

  /** Where the walk is led by no link it hands the path back, and there is such a place; else it is the slow form. */
  lemma {:induction false} WalkJudges(t: Tree, links: nat, root: Place, walked: seq<Comp>, rest: seq<Comp>, at: Place)
    requires Proper(t) && LeadsTo(t, links, walked, rest, at)
    ensures MeetsNoLink(t, links, walked, rest) ==>
      Walk(t, links, root, walked, rest) == Some(walked + rest) && Canonicalize(t, links, walked + rest).Some?
    ensures !MeetsNoLink(t, links, walked, rest) ==>
      Walk(t, links, root, walked, rest) == Slow(t, links, root, walked + rest)
    decreases |rest|
  {
    assert rest[..|rest|] == rest && walked + rest[..0] == walked;
    assert Canonicalize(t, links, walked) == Some(at);
    assert Canonicalize(t, links, walked + rest) == Resolve(t, links, at, rest);
    if rest == [] {
      assert walked + rest == walked;
    } else {
      assert (walked + [rest[0]])[..|walked|] == walked;
      var next := if rest[0].Up? then Parent(at) else at + [rest[0].name];
      if t[at] == Dir {
        assert at != [] ==> Parent(at) in t && t[Parent(at)] == Dir;
        if Canonical(t, next) {
          assert walked + [rest[0]] + rest[1..] == walked + rest;
          LeadsOn(t, links, walked, rest, at, next);
          WalkJudges(t, links, root, walked + [rest[0]], rest[1..], next);
        }
      }
    }
  }

  lemma FastJudges(t: Tree, links: nat, root: Place, rel: seq<Comp>)
    requires Proper(t) && Canonical(t, root)
    ensures var target := Names(root) + rel;
      && (MeetsNoLink(t, links, Names(root), rel) ==>
            Fast(t, links, root, target) == Some(target) && Canonicalize(t, links, target).Some?)
      && (!MeetsNoLink(t, links, Names(root), rel) ==> Fast(t, links, root, target) == Slow(t, links, root, target))
  {
    forall n | 0 <= n <= |rel|
      ensures Canonicalize(t, links, Names(root) + rel[..n]) == Resolve(t, links, root, rel[..n])
    {
      CanonicalPrefix(t, links, root, rel[..n]);
    }
    WalkJudges(t, links, root, Names(root), rel, root);
    assert (Names(root) + rel)[|root|..] == rel;
  }

  /**
   For a path of any components below the root, `contained` lets out what the slow form refuses exactly
   when the walk meets no link and the path leads outside the root.
   */
  lemma EscapesIff(t: Tree, links: nat, root: Place, rel: seq<Comp>)
    requires Proper(t) && Canonical(t, root)
    ensures var target := Names(root) + rel;
      Fast(t, links, root, target).Some? && Slow(t, links, root, target).None?
      <==> MeetsNoLink(t, links, Names(root), rel)
           && Canonicalize(t, links, target).Some? && !(root <= Canonicalize(t, links, target).value)
  {
    FastJudges(t, links, root, rel);
  }

  /**
   What leads inside the root by a path that starts with the root's own name is served, and it is the
   same file, `..` or not; by a path that does not it is never served. So it is with a mount's fallback,
   of which only where it leads is looked at when the mount is built.
   */
  lemma InsideIsServedIff(t: Tree, links: nat, root: Place, target: seq<Comp>)
    requires Proper(t) && Canonical(t, root) && Slow(t, links, root, target).Some?
    ensures Fast(t, links, root, target).Some? <==> Names(root) <= target
    ensures Fast(t, links, root, target).Some? ==>
      Canonicalize(t, links, Fast(t, links, root, target).value) == Canonicalize(t, links, target)
  {
    if Names(root) <= target {
      var rel := target[|root|..];
      assert target == Names(root) + rel;
      FastJudges(t, links, root, rel);
      var place := Canonicalize(t, links, target).value;
      ResolvedIsCanonical(t, links, [], target);
      CanonicalPrefix(t, links, place, []);
    }
  }

  /** A fallback named through a link to the root's directory: it leads inside, and is not served. */
  lemma FallbackByAnotherName(t: Tree, links: nat, a: Bytes, b: Bytes, f: Bytes)
    requires links > 0 && a != b
    requires t == map[[] := Dir, [a] := Dir, [a, f] := File, [b] := Link(false, [Name(a)])]
    ensures Proper(t) && Canonical(t, [a])
    ensures Slow(t, links, [a], [Name(b), Name(f)]) == Some([Name(a), Name(f)])
    ensures Fast(t, links, [a], [Name(b), Name(f)]) == None
  {
    assert Parent([a]) == [] && Parent([b]) == [] && Parent([a, f]) == [a];
    var path := [Name(b), Name(f)];
    assert [] + [a] == [a] && [] + [b] == [b] && [a] + [f] == [a, f];
    assert path[1..] == [Name(f)] && [Name(f)][1..] == [];
    assert [Name(a)] + [Name(f)] == [Name(a), Name(f)] && [Name(a), Name(f)][1..] == [Name(f)];
    assert Resolve(t, links - 1, [a, f], []) == Some([a, f]);
    assert Resolve(t, links - 1, [a], [Name(f)]) == Some([a, f]);
    assert Resolve(t, links - 1, [], [Name(a), Name(f)]) == Some([a, f]);
    assert Canonicalize(t, links, path) == Some([a, f]);
    assert Names([a, f]) == [Name(a), Name(f)] && Names([a])[0] == Name(a);
  }

  /**
   Why segments must have no `..`: with a file beside the root and no link anywhere, `contained` would let
   out what the slow form refuses.
   */
  lemma DotDotEscapes(t: Tree, links: nat, a: Bytes, b: Bytes)
    requires a != b && t == map[[] := Dir, [a] := Dir, [b] := File]
    ensures Proper(t) && Canonical(t, [a])
    ensures Fast(t, links, [a], [Name(a), Up, Name(b)]) == Some([Name(a), Up, Name(b)])
    ensures Slow(t, links, [a], [Name(a), Up, Name(b)]) == None
  {
    var path := [Name(a), Up, Name(b)];
    assert [] + [a] == [a] && Parent([a]) == [] && [] + [b] == [b];
    assert path[1..] == [Up, Name(b)] && path[1..][1..] == [Name(b)] && [Name(b)][1..] == [];
    assert Resolve(t, links, [b], []) == Some([b]);
    assert Resolve(t, links, [], [Name(b)]) == Some([b]);
    assert Resolve(t, links, [a], path[1..]) == Some([b]);
    assert Canonicalize(t, links, path) == Some([b]);
    var two := [Name(a), Up];
    assert two[1..] == [Up] && [Up][1..] == [] && two[..1] == [Name(a)] && path[..2] == two;
    CanonicalPrefix(t, links, [a], []);
    CanonicalPrefix(t, links, [a], [Up]);
    assert Names([a]) == [Name(a)] && Names([a]) + [Up] == two;
    assert Lstat(t, links, two) == Some(Dir);
    assert Canonicalize(t, links, two) == Some([]);
    assert two + [Name(b)] == path;
    assert Lstat(t, links, path) == Some(File);
    assert Walk(t, links, [a], path, []) == Some(path);
    assert Walk(t, links, [a], two, [Name(b)]) == Some(path);
    assert Walk(t, links, [a], [Name(a)], path[1..]) == Some(path);
  }
}

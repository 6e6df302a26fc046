/**
 The search for a precompressed file (src/files.rs): `negotiate` asked again and again over the codings
 not yet tried. It tries the acceptable codings in rank order, each once, and so finds the best-ranked
 file that may be sent, or none exists.
 */
module Variants {
  import opened Util
  import opened Paths
  import opened Containment
  import opened Negotiation

  /** A tree and when its files were modified; a file without a time is one whose time cannot be read. */
  datatype Files = Files(tree: Tree, modified: map<Place, int>)

  const VARIANTS: seq<Encoding> := [Brotli, Gzip]

  function Suffix(e: Encoding): Bytes {
    match e
    case Brotli => Ascii(".br")
    case Gzip => Ascii(".gz")
  }

  /**
   `original` is what `contained` handed back for some target, and it led to a regular file inside the root.
   It may keep a `..` if it is a mount's fallback.
   */
  ghost predicate Opened(t: Tree, links: nat, root: Place, original: seq<Comp>, place: Place) {
    && Fast(t, links, root, original) == Some(original)
    && Canonicalize(t, links, original) == Some(place)
    && root <= place && place in t && t[place] == File
  }

  /** Whatever is served is that: the target itself, or where its links lead. */
  lemma ServedIsOpened(t: Tree, links: nat, root: Place, target: seq<Comp>)
    requires Proper(t) && Canonical(t, root) && Slow(t, links, root, target).Some?
    requires Fast(t, links, root, target).Some?
    requires var place := Canonicalize(t, links, target).value; place in t && t[place] == File
    ensures Opened(t, links, root, Fast(t, links, root, target).value, Canonicalize(t, links, target).value)
  {
    var original, place := Fast(t, links, root, target).value, Canonicalize(t, links, target).value;
    InsideIsServedIff(t, links, root, target);
    var rel := target[|root|..];
    assert target == Names(root) + rel;
    FastJudges(t, links, root, rel);
    if !MeetsNoLink(t, links, Names(root), rel) {
      ResolvedIsCanonical(t, links, [], target);
      CanonicalPrefix(t, links, place, []);
      assert place == root + place[|root|..];
      ContainedIsSlow(t, links, root, place[|root|..]);
    }
  }

  /** The path beside `original` that holds its `e` variant: the suffix goes onto whatever comes last. */
  function VariantOf(original: seq<Comp>, e: Encoding): seq<Comp>
    requires original != []
  {
    var last := original[|original| - 1];
    original[..|original| - 1] + [Name((if last.Up? then [DOT, DOT] else last.name) + Suffix(e))]
  }

  /**
   Whether the `e` variant may be sent: where its links lead is a regular file inside the root, no older
   than the original.
   */
  predicate Usable(fs: Files, links: nat, root: Place, original: seq<Comp>, place: Place, e: Encoding)
    requires original != [] && place in fs.modified
  {
    var found := Canonicalize(fs.tree, links, VariantOf(original, e));
    && found.Some? && found.value in fs.tree && fs.tree[found.value] == File
    && root <= found.value
    && found.value in fs.modified && fs.modified[found.value] >= fs.modified[place]
  }

  // ----- `contained` finds a variant exactly where it lies inside -----

  /** One component on from a directory, if it meets no link. */
  function Beside(dir: Place, c: Comp): Place {
    if c.Up? then Parent(dir) else dir + [c.name]
  }

  lemma {:induction false} ResolveLast(t: Tree, links: nat, at: Place, todo: seq<Comp>, c: Comp)
    requires Proper(t) && Resolve(t, links, at, todo).Some?
    requires var dir := Resolve(t, links, at, todo).value; dir in t && t[dir] == Dir && Canonical(t, Beside(dir, c))
    ensures Resolve(t, links, at, todo + [c]) == Some(Beside(Resolve(t, links, at, todo).value, c))
    decreases links, |todo|
  {
    if todo == [] {
      assert [] + [c] == [c] && [c][1..] == [];
      assert Resolve(t, links, Beside(at, c), []) == Some(Beside(at, c));
    } else {
      assert (todo + [c])[0] == todo[0] && (todo + [c])[1..] == todo[1..] + [c];
      if todo[0].Up? {
        ResolveLast(t, links, Parent(at), todo[1..], c);
      } else {
        var next := at + [todo[0].name];
        if t[next].Link? {
          assert t[next].to + (todo[1..] + [c]) == t[next].to + todo[1..] + [c];
          ResolveLast(t, links - 1, if t[next].absolute then [] else at, t[next].to + todo[1..], c);
        } else {
          ResolveLast(t, links, next, todo[1..], c);
        }
      }
    }
  }

  /** A walk that meets no link meets none at its last component. */
  lemma {:induction false} MeetsNoneLast(t: Tree, links: nat, walked: seq<Comp>, rest: seq<Comp>)
    requires MeetsNoLink(t, links, walked, rest) && rest != []
    ensures var found := Lstat(t, links, walked + rest); found.Some? && !found.value.Link?
    decreases |rest|
  {
    if |rest| == 1 {
      assert rest == [rest[0]];
    } else {
      MeetsNoneLast(t, links, walked + [rest[0]], rest[1..]);
      assert walked + [rest[0]] + rest[1..] == walked + rest;
    }
  }

  /** So the path leads one component on from where the path before it leads. */
  lemma LeadsBeside(t: Tree, links: nat, root: Place, path: seq<Comp>)
    requires Proper(t) && Names(root) <= path && |root| < |path|
    requires MeetsNoLink(t, links, Names(root), path[|root|..])
    ensures var dir := Canonicalize(t, links, path[..|path| - 1]);
      dir.Some? && Canonicalize(t, links, path) == Some(Beside(dir.value, path[|path| - 1]))
  {
    MeetsNoneLast(t, links, Names(root), path[|root|..]);
    assert Names(root) + path[|root|..] == path;
    var c := path[|path| - 1];
    assert path == path[..|path| - 1] + [c];
    ResolveLast(t, links, [], path[..|path| - 1], c);
  }

  /** What was opened lies in the directory its path names, which is inside the root too. */
  lemma OpenedInside(t: Tree, links: nat, root: Place, original: seq<Comp>, place: Place)
    requires Proper(t) && Canonical(t, root) && t[root] == Dir && Opened(t, links, root, original, place)
    ensures |root| < |original| && original[|original| - 1].Name?
    ensures root <= Parent(place) && Canonicalize(t, links, original[..|original| - 1]) == Some(Parent(place))
  {
    CanonicalPrefix(t, links, root, []);
    assert place != root;
    var rel := original[|root|..];
    assert original == Names(root) + rel;
    assert rel == [] ==> original == Names(root);
    FastJudges(t, links, root, rel);
    var d := original[..|original| - 1];
    if MeetsNoLink(t, links, Names(root), rel) {
      LeadsBeside(t, links, root, original);
      ResolvedIsCanonical(t, links, [], d);
      var dir := Canonicalize(t, links, d).value;
      assert dir != [] ==> Parent(dir) in t && t[Parent(dir)] == Dir;
      assert Parent(dir + [original[|original| - 1].name]) == dir;
    } else {
      assert original == Names(place) && d == Names(Parent(place));
      assert Parent(place) in t && t[Parent(place)] == Dir;
      CanonicalPrefix(t, links, Parent(place), []);
    }
  }

  /** Whatever variant `contained` lets out lies inside, and it lets out whatever does. */
  lemma VariantIsServedIff(t: Tree, links: nat, root: Place, original: seq<Comp>, place: Place, e: Encoding)
    requires Proper(t) && Canonical(t, root) && t[root] == Dir && Opened(t, links, root, original, place)
    ensures original != []
    ensures var path := VariantOf(original, e);
      && (Fast(t, links, root, path).Some? <==> Slow(t, links, root, path).Some?)
      && (Fast(t, links, root, path).Some? ==>
            Canonicalize(t, links, Fast(t, links, root, path).value) == Canonicalize(t, links, path))
  {
    OpenedInside(t, links, root, original, place);
    var path := VariantOf(original, e);
    assert Names(root) <= path;
    var rel := path[|root|..];
    assert path == Names(root) + rel && path[..|path| - 1] == original[..|original| - 1];
    FastJudges(t, links, root, rel);
    if MeetsNoLink(t, links, Names(root), rel) {
      LeadsBeside(t, links, root, path);
    }
    if Slow(t, links, root, path).Some? {
      InsideIsServedIff(t, links, root, path);
    }
  }

  // ----- The search -----

  function Retain(s: seq<Encoding>, e: Encoding): (r: seq<Encoding>)
    ensures forall o :: o in r <==> o in s && o != e
    ensures |r| <= |s| && (e in s ==> |r| < |s|)
  {
    if s == [] then [] else (if s[0] == e then [] else [s[0]]) + Retain(s[1..], e)
  }

  lemma {:induction false} RetainKeepsOrder(s: seq<Encoding>, e: Encoding, a: Encoding, b: Encoding)
    requires a in Retain(s, e) && b in Retain(s, e)
    ensures Index(Retain(s, e), a) < Index(Retain(s, e), b) <==> Index(s, a) < Index(s, b)
  {
    if s != [] {
      var rest := Retain(s[1..], e);
      if s[0] != e {
        assert Retain(s, e)[1..] == rest;
      }
      if s[0] != a && s[0] != b {
        RetainKeepsOrder(s[1..], e, a, b);
      }
    }
  }

  /** The codings tried so far are the front of the ranking, and those offered are the rest. */
  ghost predicate Ranked(w: Encoding -> nat, prefer: seq<Encoding>, tried: seq<Encoding>) {
    && (forall i :: 0 <= i < |tried| ==> Acceptable(w, prefer, tried[i]))
    && (forall i, j :: 0 <= i < j < |tried| ==> tried[i] != tried[j] && Before(w, prefer, tried[i], tried[j]))
    && (forall e, o :: e in tried && Acceptable(w, prefer, o) && o !in tried ==> Before(w, prefer, e, o))
  }

  ghost predicate Rest(prefer: seq<Encoding>, tried: seq<Encoding>, offered: seq<Encoding>) {
    && (forall e :: e in offered <==> e in prefer && e !in tried)
    && (forall a, b :: a in offered && b in offered ==>
         (Index(offered, a) < Index(offered, b) <==> Index(prefer, a) < Index(prefer, b)))
  }

  lemma TriedInOrder(w: Encoding -> nat, prefer: seq<Encoding>, tried: seq<Encoding>, offered: seq<Encoding>,
                     e: Encoding)
    requires Ranked(w, prefer, tried) && Rest(prefer, tried, offered) && Best(w, offered, Some(e))
    ensures e !in tried && Ranked(w, prefer, tried + [e]) && Rest(prefer, tried + [e], Retain(offered, e))
  {
    forall o | Acceptable(w, prefer, o) && o !in tried && o != e
      ensures Before(w, prefer, e, o)
    {
      assert Before(w, offered, e, o);
    }
    forall a, b | a in Retain(offered, e) && b in Retain(offered, e)
      ensures Index(Retain(offered, e), a) < Index(Retain(offered, e), b) <==> Index(prefer, a) < Index(prefer, b)
    {
      RetainKeepsOrder(offered, e, a, b);
    }
  }

  /** The best-ranked acceptable coding whose file is usable, or there is none. */
  ghost predicate BestUsable(w: Encoding -> nat, prefer: seq<Encoding>, usable: Encoding -> bool, r: Option<Encoding>) {
    match r
    case Some(e) =>
      && Acceptable(w, prefer, e) && usable(e)
      && forall o :: Acceptable(w, prefer, o) && usable(o) && o != e ==> Before(w, prefer, e, o)
    case None => forall e :: Acceptable(w, prefer, e) ==> !usable(e)
  }

  lemma FoundIsBest(w: Encoding -> nat, prefer: seq<Encoding>, usable: Encoding -> bool, tried: seq<Encoding>,
                    e: Encoding)
    requires Ranked(w, prefer, tried + [e]) && usable(e) && forall o :: o in tried ==> !usable(o)
    ensures BestUsable(w, prefer, usable, Some(e))
  {
    assert (tried + [e])[|tried|] == e;
    forall o | Acceptable(w, prefer, o) && usable(o) && o != e
      ensures Before(w, prefer, e, o)
    {
      assert o !in tried + [e];
    }
  }

  /** Whether `contained` and the file behind it make the variant one that may be sent. */
  method Sendable(fs: Files, links: nat, root: Place, original: seq<Comp>, place: Place, e: Encoding)
    returns (ok: bool)
    requires Containment.Proper(fs.tree) && Canonical(fs.tree, root) && fs.tree[root] == Dir
    requires Opened(fs.tree, links, root, original, place) && place in fs.modified
    ensures original != [] && ok == Usable(fs, links, root, original, place, e)
  {
    VariantIsServedIff(fs.tree, links, root, original, place, e);
    var resolved := Contained(fs.tree, links, root, VariantOf(original, e));
    if resolved.None? {
      return false;
    }
    var file := Canonicalize(fs.tree, links, resolved.value);
    if file.None? || file.value !in fs.tree {
      return false;
    }
    var current := file.value in fs.modified && fs.modified[file.value] >= fs.modified[place];
    ok := fs.tree[file.value] == File && current;
  }

  function UsableIn(fs: Files, links: nat, root: Place, original: seq<Comp>, place: Place): Encoding -> bool
    requires original != [] && place in fs.modified
  {
    e => Usable(fs, links, root, original, place, e)
  }

  /** What a search over `prefer` that tried `tried` in this order and answered `r` amounts to. */
  ghost predicate Searched(w: Encoding -> nat, prefer: seq<Encoding>, usable: Encoding -> bool,
                           r: Option<Encoding>, tried: seq<Encoding>) {
    && BestUsable(w, prefer, usable, r)
    && Ranked(w, prefer, tried)
    && (r.None? ==> forall e :: Acceptable(w, prefer, e) ==> e in tried)
    && (r.Some? ==> tried != [] && tried[|tried| - 1] == r.value)
  }

  method Search(fs: Files, links: nat, root: Place, original: seq<Comp>, place: Place, accept: string,
                prefer: seq<Encoding>)
    returns (r: Option<Encoding>, tried: seq<Encoding>)
    requires Containment.Proper(fs.tree) && Canonical(fs.tree, root) && fs.tree[root] == Dir
    requires Opened(fs.tree, links, root, original, place) && place in fs.modified
    ensures original != [] && Searched(Weights(accept), prefer, UsableIn(fs, links, root, original, place), r, tried)
  {
    var offered := prefer;
    OpenedInside(fs.tree, links, root, original, place);
    ghost var w, usable := Weights(accept), UsableIn(fs, links, root, original, place);
    tried := [];
    r := Negotiate(accept, offered);
    while r.Some?
      invariant Ranked(w, prefer, tried) && Rest(prefer, tried, offered)
      invariant forall o :: o in tried ==> !usable(o)
      invariant Best(w, offered, r)
      decreases |offered|
    {
      TriedInOrder(w, prefer, tried, offered, r.value);
      offered := Retain(offered, r.value);
      var ok := Sendable(fs, links, root, original, place, r.value);
      if ok {
        FoundIsBest(w, prefer, usable, tried, r.value);
        tried := tried + [r.value];
        return;
      }
      tried := tried + [r.value];
      r := Negotiate(accept, offered);
    }
    NoneIsLeft(w, prefer, usable, tried, offered);
  }

  lemma NoneIsLeft(w: Encoding -> nat, prefer: seq<Encoding>, usable: Encoding -> bool, tried: seq<Encoding>,
                   offered: seq<Encoding>)
    requires Ranked(w, prefer, tried) && Rest(prefer, tried, offered) && Best(w, offered, None)
    requires forall o :: o in tried ==> !usable(o)
    ensures Searched(w, prefer, usable, None, tried)
  {
    forall e | Acceptable(w, prefer, e)
      ensures e in tried
    {
      assert !Acceptable(w, offered, e);
    }
  }

  /** `variant`: no variant for a range request, without the header, or for an original of unknown age. */
  method Variant(fs: Files, links: nat, root: Place, original: seq<Comp>, place: Place, accept: Option<string>,
                 range: bool)
    returns (r: Option<Encoding>, tried: seq<Encoding>)
    requires Containment.Proper(fs.tree) && Canonical(fs.tree, root) && fs.tree[root] == Dir
    requires Opened(fs.tree, links, root, original, place)
    ensures range || accept.None? || place !in fs.modified ==> r.None? && tried == []
    ensures !range && accept.Some? && place in fs.modified ==>
      && original != []
      && Searched(Weights(accept.value), VARIANTS, UsableIn(fs, links, root, original, place), r, tried)
  {
    if range || accept.None? || place !in fs.modified {
      return None, [];
    }
    r, tried := Search(fs, links, root, original, place, accept.value, VARIANTS);
  }
}

/**
  Path resolution on a file system with symbolic links, and the allow-list check in front of remote file
  access: what is accepted stays in its configuration root and is not redirected by any link.
 */
module PathAllowlist {
  import opened Options

  /** An absolute path as its components below the root directory. */
  type Path = seq<string>

  /** A path as written: absolute or not, with empty, `.` and `..` components. */
  datatype Raw = Raw(absolute: bool, parts: seq<string>)

  datatype Node = Dir | File | Link(target: Raw)

  type FS = map<Path, Node>

  /** Links that one resolution follows before it gives up. */
  const LIMIT := 255

  predicate Proper(name: string) {
    name != "" && name != "." && name != ".."
  }

  /** Every entry lies in a directory. */
  ghost predicate WellFormed(fs: FS) {
    [] in fs && fs[[]] == Dir && forall p :: LiesInDir(fs, p)
  }

  predicate LiesInDir(fs: FS, p: Path) {
    p in fs && p != [] ==> Proper(p[|p| - 1]) && p[..|p| - 1] in fs && fs[p[..|p| - 1]] == Dir
  }

  predicate Physical(fs: FS, p: Path) {
    p in fs && !fs[p].Link?
  }

  function Parent(p: Path): Path {
    if p == [] then [] else p[..|p| - 1]
  }

  // ----- cleaning and resolving -----

  /** Lexical cleaning: `..` takes back the last component, and stays at the root directory. */
  function Clean(done: Path, parts: seq<string>): Path
    decreases |parts|
  {
    if parts == [] then done
    else if parts[0] == "" || parts[0] == "." then Clean(done, parts[1..])
    else if parts[0] == ".." then Clean(Parent(done), parts[1..])
    else Clean(done + [parts[0]], parts[1..])
  }

  ghost predicate IsClean(p: Path) {
    forall i :: 0 <= i < |p| ==> Proper(p[i])
  }

  lemma {:induction false} CleanIsClean(done: Path, parts: seq<string>)
    requires IsClean(done)
    ensures IsClean(Clean(done, parts))
    decreases |parts|
  {
    if parts != [] {
      if parts[0] == "" || parts[0] == "." {
        CleanIsClean(done, parts[1..]);
      } else if parts[0] == ".." {
        CleanIsClean(Parent(done), parts[1..]);
      } else {
        CleanIsClean(done + [parts[0]], parts[1..]);
      }
    }
  }

  /** Resolves `rest` from the link-free path `dest` on, with `links` links followed so far. */
  function Walk(fs: FS, dest: Path, rest: seq<string>, links: nat): Option<Path>
    decreases LIMIT - links, |rest|
  {
    if rest == [] then Some(dest)
    else if rest[0] == "" || rest[0] == "." then Walk(fs, dest, rest[1..], links)
    else if rest[0] == ".." then Walk(fs, Parent(dest), rest[1..], links)
    else
      var p := dest + [rest[0]];
      if p !in fs then None
      else
        match fs[p]
        case Dir => Walk(fs, p, rest[1..], links)
        case File => if |rest| == 1 then Some(p) else None
        case Link(target) =>
          if links >= LIMIT then None
          else Walk(fs, if target.absolute then [] else dest, target.parts + rest[1..], links + 1)
  }

  function EvalSymlinks(fs: FS, p: Path): Option<Path> {
    Walk(fs, [], p, 0)
  }

  /** Whether something is there, a link that leads nowhere included. */
  predicate Lstat(fs: FS, p: Path) {
    p == [] || (var d := EvalSymlinks(fs, p[..|p| - 1]); d.Some? && d.value + [p[|p| - 1]] in fs)
  }

  /** Lexical cleaning is what resolving does where there are no links. */
  lemma {:induction false} CleanIsResolution(fs: FS, dest: Path, parts: seq<string>, links: nat)
    requires (forall p :: p in fs ==> !fs[p].Link?) && Walk(fs, dest, parts, links).Some?
    ensures Walk(fs, dest, parts, links).value == Clean(dest, parts)
    decreases |parts|
  {
    if parts != [] {
      if parts[0] == "" || parts[0] == "." {
        CleanIsResolution(fs, dest, parts[1..], links);
      } else if parts[0] == ".." {
        CleanIsResolution(fs, Parent(dest), parts[1..], links);
      } else if fs[dest + [parts[0]]].Dir? {
        CleanIsResolution(fs, dest + [parts[0]], parts[1..], links);
      }
    }
  }

  /** A clean path is cleaned to itself. */
  lemma {:induction false} CleanTwice(done: Path, p: Path)
    requires IsClean(p)
    ensures Clean(done, p) == done + p
    decreases |p|
  {
    if p != [] {
      assert Proper(p[0]);
      CleanTwice(done + [p[0]], p[1..]);
      assert done + [p[0]] + p[1..] == done + p;
    }
  }

  lemma {:induction false} WalkIsPhysical(fs: FS, dest: Path, rest: seq<string>, links: nat)
    requires WellFormed(fs) && Physical(fs, dest) && (rest != [] ==> fs[dest] == Dir)
             && Walk(fs, dest, rest, links).Some?
    ensures Physical(fs, Walk(fs, dest, rest, links).value)
    decreases LIMIT - links, |rest|
  {
    if rest != [] {
      if rest[0] == "" || rest[0] == "." {
        WalkIsPhysical(fs, dest, rest[1..], links);
      } else if rest[0] == ".." {
        assert LiesInDir(fs, dest);
        WalkIsPhysical(fs, Parent(dest), rest[1..], links);
      } else {
        var p := dest + [rest[0]];
        match fs[p]
        case Dir => WalkIsPhysical(fs, p, rest[1..], links);
        case File =>
        case Link(target) =>
          WalkIsPhysical(fs, if target.absolute then [] else dest, target.parts + rest[1..], links + 1);
      }
    }
  }

  /** A resolution that goes through a component has resolved what is before it, and found the component. */
  lemma {:induction false} WalkThrough(fs: FS, dest: Path, before: seq<string>, name: string, after: seq<string>,
                                       links: nat)
    requires Proper(name) && Walk(fs, dest, before + [name] + after, links).Some?
    ensures Walk(fs, dest, before, links).Some? && Walk(fs, dest, before, links).value + [name] in fs
    decreases LIMIT - links, |before|
  {
    var rest := before + [name] + after;
    if before == [] {
      assert rest[0] == name;
    } else {
      assert rest[0] == before[0] && rest[1..] == before[1..] + [name] + after;
      if rest[0] == "" || rest[0] == "." {
        WalkThrough(fs, dest, before[1..], name, after, links);
      } else if rest[0] == ".." {
        WalkThrough(fs, Parent(dest), before[1..], name, after, links);
      } else {
        var p := dest + [rest[0]];
        if fs[p].Dir? {
          WalkThrough(fs, p, before[1..], name, after, links);
        } else if fs[p].Link? {
          var target := fs[p].target;
          assert target.parts + rest[1..] == (target.parts + before[1..]) + [name] + after;
          WalkThrough(fs, if target.absolute then [] else dest, target.parts + before[1..], name, after, links + 1);
        }
      }
    }
  }

  /** A link-free path resolves to itself. */
  lemma {:induction false} PhysicalResolves(fs: FS, dest: Path, rest: seq<string>, links: nat)
    requires WellFormed(fs) && Physical(fs, dest + rest)
    ensures Walk(fs, dest, rest, links) == Some(dest + rest)
    decreases |rest|
  {
    if rest != [] {
      var p := dest + [rest[0]];
      assert p + rest[1..] == dest + rest;
      FirstStep(fs, dest, rest);
      if |rest| > 1 {
        PhysicalResolves(fs, p, rest[1..], links);
      } else {
        assert rest[1..] == [] && p == dest + rest;
      }
    } else {
      assert dest + rest == dest;
    }
  }

  lemma FirstStep(fs: FS, dest: Path, rest: seq<string>)
    requires WellFormed(fs) && Physical(fs, dest + rest) && rest != []
    ensures Proper(rest[0]) && dest + [rest[0]] in fs && !fs[dest + [rest[0]]].Link?
    ensures |rest| > 1 ==> fs[dest + [rest[0]]] == Dir
  {
    PrefixesAreDirs(fs, dest + rest, |dest| + 1);
    assert (dest + rest)[..|dest| + 1] == dest + [rest[0]];
    if |rest| == 1 {
      assert dest + rest == dest + [rest[0]];
    }
  }

  lemma {:induction false} PrefixesAreDirs(fs: FS, p: Path, k: nat)
    requires WellFormed(fs) && p in fs && 0 < k <= |p|
    ensures p[..k] in fs && Proper(p[k - 1]) && (k < |p| ==> fs[p[..k]] == Dir)
    decreases |p|
  {
    assert LiesInDir(fs, p);
    if k < |p| {
      assert p[..|p| - 1][..k] == p[..k];
      PrefixesAreDirs(fs, p[..|p| - 1], k);
    } else {
      assert p[..k] == p;
    }
  }

  lemma LstatPrefix(fs: FS, p: Path, k: nat)
    requires IsClean(p) && Lstat(fs, p) && k <= |p|
    ensures Lstat(fs, p[..k])
  {
    if 0 < k < |p| {
      assert p[..|p| - 1] == p[..k - 1] + [p[k - 1]] + p[k..|p| - 1];
      WalkThrough(fs, [], p[..k - 1], p[k - 1], p[k..|p| - 1], 0);
      assert p[..k][..k - 1] == p[..k - 1];
    } else if k == |p| {
      assert p[..k] == p;
    }
  }

  lemma ResolvableIsThere(fs: FS, p: Path)
    requires IsClean(p) && EvalSymlinks(fs, p).Some?
    ensures Lstat(fs, p)
  {
    if p != [] {
      assert p == p[..|p| - 1] + [p[|p| - 1]] + [];
      WalkThrough(fs, [], p[..|p| - 1], p[|p| - 1], [], 0);
    }
  }

  // ----- the deepest existing ancestor -----

  function Ancestor(fs: FS, p: Path): (a: Path)
    ensures a <= p && Lstat(fs, a)
    decreases |p|
  {
    if Lstat(fs, p) then p else Ancestor(fs, p[..|p| - 1])
  }

  method ExistingAncestor(fs: FS, p: Path) returns (anchor: Path)
    ensures anchor == Ancestor(fs, p)
  {
    anchor := p;
    while !Lstat(fs, anchor)
      invariant anchor <= p && Ancestor(fs, anchor) == Ancestor(fs, p)
      decreases |anchor|
    {
      anchor := anchor[..|anchor| - 1];
    }
  }

  /** The ancestor is exactly where existing stops. */
  lemma {:induction false} AncestorIsDeepest(fs: FS, p: Path, k: nat)
    requires IsClean(p) && k <= |p|
    ensures Lstat(fs, p[..k]) <==> k <= |Ancestor(fs, p)|
    decreases |p|
  {
    if Lstat(fs, p) {
      LstatPrefix(fs, p, k);
    } else if k < |p| {
      assert p[..|p| - 1][..k] == p[..k];
      AncestorIsDeepest(fs, p[..|p| - 1], k);
    } else {
      assert p[..k] == p;
    }
  }

  /** The existing part resolved, the rest taken as it is. */
  function Resolve(fs: FS, p: Path): Option<Path> {
    var anchor := Ancestor(fs, p);
    var resolved := EvalSymlinks(fs, anchor);
    if resolved.Some? then Some(resolved.value + p[|anchor|..]) else None
  }

  /** Where existing stops there is the ancestor. */
  lemma AncestorIs(fs: FS, p: Path, k: nat)
    requires IsClean(p) && k <= |p| && Lstat(fs, p[..k]) && (k < |p| ==> !Lstat(fs, p[..k + 1]))
    ensures Ancestor(fs, p) == p[..k]
  {
    var a := Ancestor(fs, p);
    AncestorIsDeepest(fs, p, k);
    if k < |p| {
      AncestorIsDeepest(fs, p, k + 1);
    }
    assert a == p[..|a|];
  }

  lemma SelfResolves(fs: FS, q: Path)
    requires WellFormed(fs) && Physical(fs, q)
    ensures EvalSymlinks(fs, q) == Some(q) && Lstat(fs, q) && IsClean(q)
  {
    forall i | 0 <= i < |q| ensures Proper(q[i]) {
      PrefixesAreDirs(fs, q, i + 1);
    }
    assert [] + q == q;
    PhysicalResolves(fs, [], q, 0);
    ResolvableIsThere(fs, q);
  }

  lemma ResolvedIsPhysical(fs: FS, p: Path)
    requires WellFormed(fs) && EvalSymlinks(fs, p).Some?
    ensures Physical(fs, EvalSymlinks(fs, p).value)
  {
    WalkIsPhysical(fs, [], p, 0);
  }

  lemma LstatChild(fs: FS, d: Path, name: string)
    requires EvalSymlinks(fs, d).Some?
    ensures Lstat(fs, d + [name]) <==> EvalSymlinks(fs, d).value + [name] in fs
  {
    assert (d + [name])[..|d|] == d;
  }

  /** Below the resolved ancestor there is nothing with the name that is missing below the ancestor. */
  lemma NothingBeyond(fs: FS, p: Path, anchor: Path, q: Path)
    requires WellFormed(fs) && IsClean(p) && anchor == Ancestor(fs, p) && EvalSymlinks(fs, anchor) == Some(q)
             && |anchor| < |p|
    ensures q + [p[|anchor|]] !in fs && !Lstat(fs, q + [p[|anchor|]])
  {
    AncestorIsDeepest(fs, p, |anchor| + 1);
    assert p[..|anchor| + 1] == anchor + [p[|anchor|]];
    LstatChild(fs, anchor, p[|anchor|]);
    ResolvedIsPhysical(fs, anchor);
    SelfResolves(fs, q);
    LstatChild(fs, q, p[|anchor|]);
  }

  /** Resolving is done after one time: the result resolves to itself. */
  lemma ResolveTwice(fs: FS, p: Path)
    requires WellFormed(fs) && IsClean(p) && Resolve(fs, p).Some?
    ensures Resolve(fs, Resolve(fs, p).value) == Resolve(fs, p)
  {
    var anchor := Ancestor(fs, p);
    ResolvedIsPhysical(fs, anchor);
    ResolveTwiceFrom(fs, p, anchor, EvalSymlinks(fs, anchor).value);
  }

  lemma ResolveTwiceFrom(fs: FS, p: Path, anchor: Path, q: Path)
    requires WellFormed(fs) && IsClean(p) && anchor == Ancestor(fs, p) && EvalSymlinks(fs, anchor) == Some(q)
             && Physical(fs, q)
    ensures Resolve(fs, q + p[|anchor|..]) == Some(q + p[|anchor|..])
  {
    var suffix := p[|anchor|..];
    SelfResolves(fs, q);
    assert suffix != [] ==> !Lstat(fs, q + [suffix[0]]) by {
      if suffix != [] {
        NothingBeyond(fs, p, anchor, q);
      }
    }
    ExtendedAncestor(fs, q, suffix);
  }

  lemma ExtendedAncestor(fs: FS, q: Path, suffix: Path)
    requires IsClean(q) && IsClean(suffix) && Lstat(fs, q) && (suffix != [] ==> !Lstat(fs, q + [suffix[0]]))
    ensures Ancestor(fs, q + suffix) == q && (q + suffix)[|q|..] == suffix
  {
    var x := q + suffix;
    assert x[..|q|] == q;
    if suffix != [] {
      assert x[..|q| + 1] == q + [suffix[0]];
    }
    AncestorIs(fs, x, |q|);
  }

  /** No link is left on the way to the result. */
  lemma NoLinkLeft(fs: FS, p: Path, k: nat)
    requires WellFormed(fs) && IsClean(p) && Resolve(fs, p).Some? && k <= |Resolve(fs, p).value|
    requires Resolve(fs, p).value[..k] in fs
    ensures !fs[Resolve(fs, p).value[..k]].Link?
  {
    var anchor := Ancestor(fs, p);
    var q := EvalSymlinks(fs, anchor).value;
    ResolvedIsPhysical(fs, anchor);
    LinkFree(fs, q, p[|anchor|..], k);
    if |anchor| < |p| {
      NothingBeyond(fs, p, anchor, q);
    }
  }

  lemma LinkFree(fs: FS, q: Path, suffix: Path, k: nat)
    requires WellFormed(fs) && Physical(fs, q) && k <= |q + suffix| && (q + suffix)[..k] in fs
    ensures (suffix != [] ==> q + [suffix[0]] !in fs) ==> !fs[(q + suffix)[..k]].Link?
  {
    var x := (q + suffix)[..k];
    if 0 < k <= |q| {
      assert x == q[..k];
      PrefixesAreDirs(fs, q, k);
      assert k == |q| ==> x == q;
    } else if k > |q| {
      PrefixesAreDirs(fs, x, |q| + 1);
      assert x[..|q| + 1] == q + [suffix[0]];
    }
  }

  // ----- the allow-list -----

  const ROOTS: seq<Path> :=
    [[".claude"], [".codex"], [".cursor"], [".config", "opencode"], [".openclaw"], [".hermes"], [".kimi-code"],
     [".grok"]]

  /** Exact files, each with its backup. */
  const FILES: seq<Path> := [[".claude.json"], [".claude.json.superdev-bak"]]

  /** The entry that admits a path below `home`: a directory tree, or exactly a file. */
  predicate Admits(home: Path, entry: Path, cleaned: Path) {
    (entry in ROOTS && home + entry <= cleaned) || (entry in FILES && home + entry == cleaned)
  }

  method MatchRoot(home: Path, cleaned: Path) returns (entry: Option<Path>)
    ensures entry.Some? ==> Admits(home, entry.value, cleaned)
    ensures entry.None? ==> forall e :: !Admits(home, e, cleaned)
  {
    for i := 0 to |ROOTS|
      invariant forall j :: 0 <= j < i ==> !(home + ROOTS[j] <= cleaned)
    {
      if home + ROOTS[i] <= cleaned {
        return Some(ROOTS[i]);
      }
    }
    for i := 0 to |FILES|
      invariant forall j :: 0 <= j < i ==> home + FILES[j] != cleaned
    {
      if home + FILES[i] == cleaned {
        return Some(FILES[i]);
      }
    }
    return None;
  }

  /** No path is admitted by two entries, so the order of the lists does not matter. */
  lemma EntryIsUnique(home: Path, a: Path, b: Path, cleaned: Path)
    requires Admits(home, a, cleaned) && Admits(home, b, cleaned)
    ensures a == b
  {
    var rel := cleaned[|home|..];
    assert a == rel[..|a|] && b == rel[..|b|];
    assert a[0] == rel[0] && b[0] == rel[0];
  }

  /** Accepted: the root is in its own place below the resolved home, and the candidate resolves into it. */
  ghost predicate InPlace(fs: FS, home: Path, entry: Path, cleaned: Path) {
    var rootAnchor, anchor := Ancestor(fs, home + entry), Ancestor(fs, cleaned);
    var resolvedHome, resolvedRoot, resolved := EvalSymlinks(fs, home), EvalSymlinks(fs, rootAnchor),
        EvalSymlinks(fs, anchor);
    && resolvedHome.Some? && resolvedRoot.Some? && resolved.Some?
    && home <= rootAnchor && resolvedRoot.value == resolvedHome.value + rootAnchor[|home|..]
    && resolvedRoot.value <= resolved.value
  }

  lemma EntriesAreClean(home: Path, entry: Path, cleaned: Path)
    requires IsClean(home) && Admits(home, entry, cleaned)
    ensures IsClean(home + entry) && home + entry <= cleaned
  {
  }

  /** Accepts exactly the absolute paths that an entry admits in place. An accepted path is returned resolved:
      below the entry in the resolved home, and without a link that a later use could follow. */
  method IntegrationPathAllowed(fs: FS, home: Path, candidate: Raw) returns (r: Option<Path>)
    requires WellFormed(fs) && IsClean(home)
    ensures var cleaned := Clean([], candidate.parts);
            && (r.Some? <==> candidate.absolute && Accepts(fs, home, cleaned))
            && (r.Some? ==> r == Resolve(fs, cleaned) && Contained(fs, home, cleaned, r.value))
    ensures r.Some? ==> Resolve(fs, r.value) == r && NoLinkOn(fs, r.value)
  {
    if !candidate.absolute {
      return None;
    }
    var cleaned := Clean([], candidate.parts);
    var entry := MatchRoot(home, cleaned);
    if entry.None? {
      return None;
    }
    EntryDecides(fs, home, entry.value, cleaned);
    EntriesAreClean(home, entry.value, cleaned);
    r := ResolveInPlace(fs, home, entry.value, cleaned);
    CleanIsClean([], candidate.parts);
    if r.Some? {
      AcceptedMeans(fs, home, entry.value, cleaned);
    }
  }

  /** No prefix of `p` is a symbolic link. */
  ghost predicate NoLinkOn(fs: FS, p: Path) {
    forall j :: 0 <= j <= |p| && p[..j] in fs ==> !fs[p[..j]].Link?
  }

  /** `p` lies under the resolved home, in the root that admits `cleaned`. */
  ghost predicate Contained(fs: FS, home: Path, cleaned: Path, p: Path) {
    exists e :: Admits(home, e, cleaned) && EvalSymlinks(fs, home).Some? && EvalSymlinks(fs, home).value + e <= p
  }

  ghost predicate Accepts(fs: FS, home: Path, cleaned: Path) {
    exists entry :: Admits(home, entry, cleaned) && InPlace(fs, home, entry, cleaned)
  }

  lemma EntryDecides(fs: FS, home: Path, entry: Path, cleaned: Path)
    requires Admits(home, entry, cleaned)
    ensures Accepts(fs, home, cleaned) <==> InPlace(fs, home, entry, cleaned)
  {
    if e :| Admits(home, e, cleaned) && InPlace(fs, home, e, cleaned) {
      EntryIsUnique(home, e, entry, cleaned);
    }
  }

  /** Everything after the match: links must neither redirect the root nor lead out of it. */
  method ResolveInPlace(fs: FS, home: Path, entry: Path, cleaned: Path) returns (r: Option<Path>)
    requires IsClean(home + entry)
    ensures r.Some? <==> InPlace(fs, home, entry, cleaned)
    ensures r.Some? ==> r == Resolve(fs, cleaned)
  {
    var resolvedHome := EvalSymlinks(fs, home);
    if resolvedHome.None? {
      return None;
    }
    HomeIsBelow(fs, home, entry);
    var rootAnchor := ExistingAncestor(fs, home + entry);
    var resolvedRoot := EvalSymlinks(fs, rootAnchor);
    if resolvedRoot.None? {
      return None;
    }
    if resolvedRoot.value != resolvedHome.value + rootAnchor[|home|..] {
      return None;
    }
    var anchor := ExistingAncestor(fs, cleaned);
    var resolved := EvalSymlinks(fs, anchor);
    if resolved.None? {
      return None;
    }
    if !(resolvedRoot.value <= resolved.value) {
      return None;
    }
    return Some(resolved.value + cleaned[|anchor|..]);
  }

  /** With a home that resolves, the existing part of a root reaches down to the home at least. */
  lemma HomeIsBelow(fs: FS, home: Path, entry: Path)
    requires IsClean(home + entry) && EvalSymlinks(fs, home).Some?
    ensures home <= Ancestor(fs, home + entry)
  {
    assert (home + entry)[..|home|] == home;
    assert forall i :: 0 <= i < |home| ==> home[i] == (home + entry)[i];
    ResolvableIsThere(fs, home);
    AncestorIsDeepest(fs, home + entry, |home|);
  }

  // ----- what acceptance means -----

  /** An accepted path ends up under the resolved home, in exactly the root it was admitted by, whether or
      not the root and the rest of the path exist yet. */
  lemma AcceptedIsContained(fs: FS, home: Path, entry: Path, cleaned: Path)
    requires WellFormed(fs) && IsClean(home) && IsClean(cleaned) && Admits(home, entry, cleaned)
             && InPlace(fs, home, entry, cleaned)
    ensures EvalSymlinks(fs, home).value + entry <= Resolve(fs, cleaned).value
  {
    var root := home + entry;
    var rootAnchor, anchor := Ancestor(fs, root), Ancestor(fs, cleaned);
    if rootAnchor == root {
      assert rootAnchor[|home|..] == entry;
    } else {
      MissingRoot(fs, root, cleaned);
      JoinedTail(EvalSymlinks(fs, home).value, home, entry, cleaned, anchor);
    }
  }

  /** Where a root does not exist, nothing below it does. */
  lemma MissingRoot(fs: FS, root: Path, cleaned: Path)
    requires IsClean(cleaned) && root <= cleaned && Ancestor(fs, root) != root
    ensures Ancestor(fs, cleaned) == Ancestor(fs, root)
  {
    var k := |Ancestor(fs, root)|;
    assert IsClean(root) && k < |root|;
    AncestorIsDeepest(fs, root, k + 1);
    assert cleaned[..k] == root[..k] == Ancestor(fs, root) && cleaned[..k + 1] == root[..k + 1];
    AncestorIs(fs, cleaned, k);
  }

  lemma JoinedTail(h: Path, home: Path, entry: Path, cleaned: Path, anchor: Path)
    requires home <= anchor <= home + entry <= cleaned
    ensures h + entry <= (h + anchor[|home|..]) + cleaned[|anchor|..]
  {
    var rest := (home + entry)[|anchor|..];
    assert anchor[|home|..] + rest == entry;
    assert cleaned[|anchor|..][..|rest|] == rest;
    assert h + entry == (h + anchor[|home|..]) + rest;
  }

  /** No link is left on an accepted path, and resolving it again changes nothing. */
  lemma AcceptedIsStable(fs: FS, home: Path, entry: Path, cleaned: Path)
    requires WellFormed(fs) && IsClean(cleaned) && InPlace(fs, home, entry, cleaned)
    ensures Resolve(fs, Resolve(fs, cleaned).value) == Resolve(fs, cleaned) && NoLinkOn(fs, Resolve(fs, cleaned).value)
  {
    ResolveTwice(fs, cleaned);
    var r := Resolve(fs, cleaned).value;
    forall k | 0 <= k <= |r| && r[..k] in fs ensures !fs[r[..k]].Link? {
      NoLinkLeft(fs, cleaned, k);
    }
  }

  lemma AcceptedMeans(fs: FS, home: Path, entry: Path, cleaned: Path)
    requires WellFormed(fs) && IsClean(home) && IsClean(cleaned)
    requires Admits(home, entry, cleaned) && InPlace(fs, home, entry, cleaned)
    ensures Resolve(fs, cleaned).Some? && Contained(fs, home, cleaned, Resolve(fs, cleaned).value)
    ensures Resolve(fs, Resolve(fs, cleaned).value) == Resolve(fs, cleaned) && NoLinkOn(fs, Resolve(fs, cleaned).value)
  {
    AcceptedIsContained(fs, home, entry, cleaned);
    AcceptedIsStable(fs, home, entry, cleaned);
  }

  /** A path that meets no link is accepted as it is. */
  lemma PlainPathIsAccepted(fs: FS, home: Path, entry: Path, cleaned: Path)
    requires WellFormed(fs) && IsClean(home) && IsClean(cleaned) && Admits(home, entry, cleaned)
    requires Physical(fs, home) && NoLinkOn(fs, cleaned)
    ensures InPlace(fs, home, entry, cleaned) && Resolve(fs, cleaned) == Some(cleaned)
  {
    EntriesAreClean(home, entry, cleaned);
    PlainPathResolves(fs, home, entry, cleaned);
  }

  lemma PlainPathResolves(fs: FS, home: Path, entry: Path, cleaned: Path)
    requires WellFormed(fs) && IsClean(home + entry) && IsClean(cleaned) && home + entry <= cleaned
    requires Physical(fs, home) && NoLinkOn(fs, cleaned)
    ensures InPlace(fs, home, entry, cleaned) && Resolve(fs, cleaned) == Some(cleaned)
  {
    SelfResolves(fs, home);
    HomeIsBelow(fs, home, entry);
    PlainAnchor(fs, cleaned, home + entry);
    PlainAnchor(fs, cleaned, cleaned);
    AncestorGrows(fs, home + entry, cleaned);
    RestOf(home, Ancestor(fs, home + entry));
    RestOf(Ancestor(fs, cleaned), cleaned);
  }

  lemma RestOf(a: Path, p: Path)
    requires a <= p
    ensures a + p[|a|..] == p
  {
  }

  lemma PlainAnchor(fs: FS, cleaned: Path, p: Path)
    requires WellFormed(fs) && IsClean(cleaned) && p <= cleaned && NoLinkOn(fs, cleaned)
    ensures EvalSymlinks(fs, Ancestor(fs, p)) == Some(Ancestor(fs, p))
  {
    var a := Ancestor(fs, p);
    assert cleaned[..|a|] == a;
    PlainAncestor(fs, cleaned, |a|);
  }

  lemma AncestorGrows(fs: FS, p: Path, longer: Path)
    requires IsClean(longer) && p <= longer
    ensures Ancestor(fs, p) <= Ancestor(fs, longer)
  {
    var a := Ancestor(fs, p);
    assert longer[..|a|] == a;
    AncestorIsDeepest(fs, longer, |a|);
    assert Ancestor(fs, longer) == longer[..|Ancestor(fs, longer)|];
  }

  lemma {:induction false} PlainAncestor(fs: FS, p: Path, k: nat)
    requires WellFormed(fs) && IsClean(p) && k <= |p| && Lstat(fs, p[..k]) && NoLinkOn(fs, p)
    ensures EvalSymlinks(fs, p[..k]) == Some(p[..k])
    decreases k
  {
    if k == 0 {
      SelfResolves(fs, []);
      assert p[..0] == [];
    } else {
      ParentIsThere(fs, p, k);
      PlainAncestor(fs, p, k - 1);
      assert p[..k - 1] + [p[k - 1]] == p[..k];
      PlainChild(fs, p[..k - 1], p[k - 1]);
    }
  }

  lemma ParentIsThere(fs: FS, p: Path, k: nat)
    requires IsClean(p) && 0 < k <= |p| && Lstat(fs, p[..k])
    ensures Lstat(fs, p[..k - 1])
  {
    LstatPrefix(fs, p[..k], k - 1);
    assert p[..k][..k - 1] == p[..k - 1];
  }

  lemma PlainChild(fs: FS, parent: Path, name: string)
    requires WellFormed(fs) && EvalSymlinks(fs, parent) == Some(parent) && Lstat(fs, parent + [name])
    requires parent + [name] in fs ==> !fs[parent + [name]].Link?
    ensures EvalSymlinks(fs, parent + [name]) == Some(parent + [name])
  {
    LstatChild(fs, parent, name);
    SelfResolves(fs, parent + [name]);
  }
}

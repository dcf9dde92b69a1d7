/**
  * Path checks that ask a file system: the control plane's, through a remote `realpath`, and the execution broker's,
  * which also admits paths that do not exist yet. The file system is a parameter.
  */
module CheckedPaths {
  import opened ManagedAdminPolicy
  import opened Paths
  import opened Sequences
  import opened Texts
  import opened Wrappers

  datatype CheckError = NotAbsolute | Traversal | Secret | Unresolved | NoRoots | Outside | RepoNotAllowed

  /* The control plane. */

  /** `realpath` is the first line printed by `realpath -e`, if it succeeds. */
  datatype Remote = Remote(isSecret: Text -> bool, realpath: Text -> Option<Text>)

  function CanonicalRealPath(input: Text, m: Remote): Result<Text, CheckError> {
    var cleaned := Sanitize(input);
    if !([SLASH] <= cleaned) then Err(CheckError.NotAbsolute) else
    var segments := Segments(cleaned);
    if segments == [] || DOT_DOT in segments then Err(CheckError.Traversal)
    else if m.isSecret(Render(segments)) then Err(CheckError.Secret)
    else if m.realpath(Render(segments)).None? then Err(Unresolved)
    else
      var resolved := m.realpath(Render(segments)).value;
      if !([SLASH] <= resolved) || DOT_DOT in Split(resolved, SLASH) then Err(Unresolved)
      else if m.isSecret(resolved) then Err(CheckError.Secret)
      else Ok(resolved)
  }

  /** For files under the allowed paths, and for directories of processes alike. */
  function ResolveCheckedPath(input: Text, roots: seq<Text>, m: Remote): Result<Text, CheckError> {
    var resolved :- CanonicalRealPath(input, m);
    if roots == [] then Err(CheckError.NoRoots)
    else if exists i | 0 <= i < |roots| :: Under(resolved, StripSlashes(roots[i])) then Ok(resolved)
    else Err(CheckError.Outside)
  }

  method ResolveCheckedGitRepo(input: Text, repos: seq<Text>, m: Remote) returns (r: Result<Text, CheckError>)
    ensures CanonicalRealPath(input, m).Err? ==> r == CanonicalRealPath(input, m)
    ensures r.Ok? ==> r == CanonicalRealPath(input, m)
    ensures CanonicalRealPath(input, m).Ok? ==>
              (r.Ok? <==> exists i | 0 <= i < |repos| :: CanonicalRealPath(repos[i], m) == CanonicalRealPath(input, m))
  {
    var resolved :- CanonicalRealPath(input, m);
    var i := 0;
    while i < |repos|
      invariant 0 <= i <= |repos|
      invariant forall j | 0 <= j < i :: CanonicalRealPath(repos[j], m) != Ok(resolved)
    {
      if CanonicalRealPath(repos[i], m) == Ok(resolved) {
        return Ok(resolved);
      }
      i := i + 1;
    }
    r := Err(RepoNotAllowed);
  }

  /** The path returned is the resolved one, not secret, free of ".." and below a root, segment by segment. */
  lemma ResolvedIsContained(input: Text, roots: seq<Text>, m: Remote)
    requires ResolveCheckedPath(input, roots, m).Ok?
    ensures var path := ResolveCheckedPath(input, roots, m).value;
            && m.realpath(Render(Segments(Sanitize(input)))) == Some(path) && !m.isSecret(path)
            && DOT_DOT !in Segments(path)
            && exists i | 0 <= i < |roots| :: Segments(roots[i]) <= Segments(path)
  {
    var path := ResolveCheckedPath(input, roots, m).value;
    var i :| 0 <= i < |roots| && Under(path, StripSlashes(roots[i]));
    UnderIsPrefix(path, StripSlashes(roots[i]));
    SegmentsOfStripped(roots[i]);
    KeepIsSubset(Split(path, SLASH));
  }

  /* The execution broker, on segment lists: a rendered path is below a root exactly when its segments are. */

  type Segs = seq<Text>

  /** An absolute path as written: a slash at the end asks the file system for a directory. */
  datatype Location = Location(segs: Segs, slash: bool)

  function TextOf(at: Location): Text {
    if at.segs == [] then [SLASH] else Render(at.segs) + if at.slash then [SLASH] else []
  }

  /** `present` is lstat, `resolve` is realpath; `isSecret` sees the path as text. */
  datatype Disk = Disk(present: Location -> bool, resolve: Location -> Option<Segs>, isSecret: Text -> bool)

  /** `dirname`: without the last segment, and without a slash at the end. */
  function Parent(at: Location): Location
    requires at.segs != []
  {
    Location(at.segs[..|at.segs| - 1], false)
  }

  /** From a path up to the first ancestor that exists. */
  function NearestExisting(at: Location, d: Disk): Option<Location>
    decreases |at.segs|
  {
    if d.present(at) then Some(at) else if at.segs == [] then None else NearestExisting(Parent(at), d)
  }

  function CommonLength(a: Segs, b: Segs): (n: nat)
    ensures n <= |a| && n <= |b| && a[..n] == b[..n]
  {
    if a == [] || b == [] || a[0] != b[0] then 0 else 1 + CommonLength(a[1..], b[1..])
  }

  function Ups(n: nat): Segs {
    if n == 0 then [] else [DOT_DOT] + Ups(n - 1)
  }

  /** `path.relative`: up to the common ancestor, then down. */
  function Relative(from: Segs, to: Segs): Segs {
    var n := CommonLength(from, to);
    Ups(|from| - n) + to[n..]
  }

  /** `path.join`: each ".." takes the last segment away. */
  function JoinPath(base: Segs, rel: Segs): Segs
    decreases rel
  {
    if rel == [] then base
    else if rel[0] == DOT_DOT then JoinPath(if base == [] then [] else base[..|base| - 1], rel[1..])
    else JoinPath(base + [rel[0]], rel[1..])
  }

  /** The first root that contains the path, resolved. Roots that do not resolve make the check fail as a whole. */
  function RootOf(roots: seq<Segs>, p: Segs): Option<Segs> {
    if roots == [] then None else if roots[0] <= p then Some(roots[0]) else RootOf(roots[1..], p)
  }

  /** `path.normalize` of an absolute path without "..": a slash at the end stays. */
  function Normalized(input: Text): Location {
    Location(Segments(input), Segments(input) != [] && input != [] && input[|input| - 1] == SLASH)
  }

  function CleanAbs(input: Text, d: Disk): Result<Location, CheckError> {
    if !([SLASH] <= input) || !SingleLine(input) || DOT_DOT in Split(input, SLASH) || Units(input) > 2048 then
      Err(CheckError.Traversal)
    else if d.isSecret(TextOf(Normalized(input))) then Err(CheckError.Secret)
    else Ok(Normalized(input))
  }

  /** A path that must exist is returned resolved. */
  function CheckedExisting(input: Text, roots: seq<Segs>, d: Disk): Result<Segs, CheckError> {
    var at :- CleanAbs(input, d);
    if d.resolve(at).None? then Err(Unresolved)
    else if RootOf(roots, d.resolve(at).value).None? then Err(CheckError.Outside)
    else if d.isSecret(TextOf(Location(d.resolve(at).value, false))) then Err(CheckError.Secret)
    else Ok(d.resolve(at).value)
  }

  /** A path that may be new is judged by its nearest existing ancestor. */
  function CheckedNew(input: Text, roots: seq<Segs>, d: Disk): Result<Segs, CheckError> {
    var at :- CleanAbs(input, d);
    if NearestExisting(at, d).None? || d.resolve(NearestExisting(at, d).value).None? then Err(Unresolved)
    else
      var existing := d.resolve(NearestExisting(at, d).value).value;
      if RootOf(roots, existing).None? then Err(CheckError.Outside)
      else
        var candidate := JoinPath(existing, Relative(existing, at.segs));
        if RootOf(roots, existing).value <= candidate then Ok(candidate) else Err(CheckError.Outside)
  }

  method FindNearestExisting(at: Location, d: Disk) returns (r: Option<Location>)
    ensures r == NearestExisting(at, d)
  {
    var cur := at;
    while true
      invariant NearestExisting(cur, d) == NearestExisting(at, d)
      decreases |cur.segs|
    {
      if d.present(cur) {
        return Some(cur);
      }
      if cur.segs == [] {
        return None;
      }
      cur := Parent(cur);
    }
  }

  /** The path as written, if it exists; else its longest prefix that does. */
  lemma {:induction false} NearestIsLongest(at: Location, d: Disk, n: nat)
    requires n < |at.segs|
    ensures match NearestExisting(at, d)
            case None => !d.present(at) && !d.present(Location(at.segs[..n], false))
            case Some(e) =>
              && d.present(e) && e.segs <= at.segs && (e == at || (!d.present(at) && !e.slash))
              && (e != at && |e.segs| < n ==> !d.present(Location(at.segs[..n], false)))
    decreases |at.segs|
  {
    if !d.present(at) {
      var up := Parent(at);
      if n == |up.segs| {
        assert at.segs[..n] == up.segs;
        if n > 0 {
          NearestIsLongest(up, d, 0);
        }
      } else {
        NearestIsLongest(up, d, n);
        assert up.segs[..n] == at.segs[..n];
      }
    }
  }

  lemma NearestIsPrefix(at: Location, d: Disk)
    requires NearestExisting(at, d).Some?
    ensures NearestExisting(at, d).value.segs <= at.segs
  {
    if at.segs != [] {
      NearestIsLongest(at, d, 0);
    }
  }

  lemma {:induction false} JoinUps(base: Segs, n: nat, rest: Segs)
    requires n <= |base|
    ensures JoinPath(base, Ups(n) + rest) == JoinPath(base[..|base| - n], rest)
  {
    if n == 0 {
      assert Ups(0) + rest == rest && base[..|base|] == base;
    } else {
      assert (Ups(n) + rest)[0] == DOT_DOT && (Ups(n) + rest)[1..] == Ups(n - 1) + rest;
      var shorter := base[..|base| - 1];
      JoinUps(shorter, n - 1, rest);
      assert shorter[..|shorter| - (n - 1)] == base[..|base| - n];
    }
  }

  lemma {:induction false} JoinDown(base: Segs, rest: Segs)
    requires DOT_DOT !in rest
    ensures JoinPath(base, rest) == base + rest
    decreases rest
  {
    if rest == [] {
      assert base + rest == base;
    } else {
      JoinDown(base + [rest[0]], rest[1..]);
      AppendIsAssociative(base, [rest[0]], rest[1..]);
      HeadAndTail(rest);
    }
  }

  /** Going to a path from wherever arrives at that path: joining the relative form gives the target back. */
  lemma JoinOfRelative(from: Segs, to: Segs)
    requires DOT_DOT !in to
    ensures JoinPath(from, Relative(from, to)) == to
  {
    var n := CommonLength(from, to);
    JoinUps(from, |from| - n, to[n..]);
    JoinDown(from[..n], to[n..]);
    TakeAndDrop(to, n);
  }

  lemma {:induction false} RootContains(roots: seq<Segs>, p: Segs)
    ensures RootOf(roots, p).Some? ==> RootOf(roots, p).value in roots && RootOf(roots, p).value <= p
    ensures RootOf(roots, p).None? ==> forall r | r in roots :: !(r <= p)
  {
    if roots != [] {
      RootContains(roots[1..], p);
      HeadAndTail(roots);
    }
  }

  /**
    * A new path passes exactly when its nearest existing ancestor resolves into a root and the path as written lies in
    * that same root. It is returned as written, up to a slash at the end, and free of ".."; where it leads to is inside
    * the root as well.
    */
  lemma NewPathExactly(input: Text, roots: seq<Segs>, d: Disk)
    requires CleanAbs(input, d).Ok?
    ensures var p, e := Segments(input), NearestExisting(Normalized(input), d);
            && (CheckedNew(input, roots, d).Ok? <==>
                && e.Some? && d.resolve(e.value).Some?
                && RootOf(roots, d.resolve(e.value).value).Some? && RootOf(roots, d.resolve(e.value).value).value <= p)
            && (CheckedNew(input, roots, d).Ok? ==>
                && CheckedNew(input, roots, d).value == p && DOT_DOT !in p && e.value.segs <= p
                && var root := RootOf(roots, d.resolve(e.value).value).value;
                   root in roots && root <= p && root <= d.resolve(e.value).value + p[|e.value.segs|..])
  {
    var p, e := Segments(input), NearestExisting(Normalized(input), d);
    KeepIsSubset(Split(input, SLASH));
    if e.Some? {
      NearestIsPrefix(Normalized(input), d);
      if d.resolve(e.value).Some? {
        JoinOfRelative(d.resolve(e.value).value, p);
        RootContains(roots, d.resolve(e.value).value);
      }
    }
  }

  /** An existing path passes exactly when it resolves into a root and is not secret, as written and as resolved. */
  lemma ExistingPathExactly(input: Text, roots: seq<Segs>, d: Disk)
    requires CleanAbs(input, d).Ok?
    ensures var target := d.resolve(Normalized(input));
            CheckedExisting(input, roots, d)
            == if target.None? then Err(Unresolved)
               else if forall r | r in roots :: !(r <= target.value) then Err(CheckError.Outside)
               else if d.isSecret(TextOf(Location(target.value, false))) then Err(CheckError.Secret)
               else Ok(target.value)
  {
    if d.resolve(Normalized(input)).Some? {
      RootContains(roots, d.resolve(Normalized(input)).value);
    }
  }

  /* An accepted path, checked again. */

  /** What realpath returns is written plainly and resolves to itself. */
  ghost predicate ResolvesForGood(d: Disk) {
    forall at: Location | d.resolve(at).Some? ::
      var target := d.resolve(at).value;
      Plain(target) && DOT_DOT !in target && d.resolve(Location(target, false)) == Some(target)
  }

  lemma {:induction false} RenderEndsPlain(segs: Segs)
    requires Plain(segs) && segs != []
    ensures [SLASH] <= Render(segs) && Render(segs)[|Render(segs)| - 1] != SLASH
  {
    if |segs| == 1 {
      assert Render(segs[1..]) == [];
    } else {
      RenderEndsPlain(segs[1..]);
    }
  }

  lemma PlainReadsBack(segs: Segs)
    requires Plain(segs) && DOT_DOT !in segs
    ensures var text := TextOf(Location(segs, false));
            [SLASH] <= text && Normalized(text) == Location(segs, false) && DOT_DOT !in Split(text, SLASH)
  {
    if segs == [] {
      SplitAfterSlash([]);
      var empty: seq<Text> := [[]];
      assert [SLASH] + [] == [SLASH] && Split([], SLASH) == empty;
      KeepConcat(empty, empty);
      assert Keep(empty) == [] && DOT_DOT !in empty + empty;
    } else {
      SegmentsOfRender(segs);
      SplitRender(segs);
      RenderEndsPlain(segs);
      assert Render(segs) + [] == Render(segs);
    }
  }

  /**
    * The path an existing one was resolved to passes the check again and is returned unchanged, exactly if it is on one
    * line and not too long: realpath promises neither, and else it is refused.
    */
  lemma ResolvedPassesAgain(input: Text, roots: seq<Segs>, d: Disk)
    requires CheckedExisting(input, roots, d).Ok? && ResolvesForGood(d)
    ensures var target := CheckedExisting(input, roots, d).value;
            var text := TextOf(Location(target, false));
            CheckedExisting(text, roots, d)
            == if SingleLine(text) && Units(text) <= 2048 then Ok(target) else Err(CheckError.Traversal)
  {
    PlainReadsBack(CheckedExisting(input, roots, d).value);
  }
}

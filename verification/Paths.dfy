/** Lexical path containment: the string prefix tests against the segment lists they stand for. */
module Paths {
  import opened ManagedAdminPolicy
  import opened Sequences
  import opened Texts
  import opened Wrappers

  datatype PathError = NotAbsolute | Traversal | Secret | NoRoots | Outside

  const DOT: Text := [0x2E]

  predicate Kept(segment: Text) {
    segment != [] && segment != DOT
  }

  function Keep(parts: seq<Text>): seq<Text> {
    if parts == [] then [] else (if Kept(parts[0]) then [parts[0]] else []) + Keep(parts[1..])
  }

  function Segments(path: Text): seq<Text> {
    Keep(Split(path, SLASH))
  }

  /** Removes NUL and line breaks. */
  function Sanitize(t: Text): Text {
    if t == [] then [] else (if t[0] in [0, 0x0A, 0x0D] then [] else [t[0]]) + Sanitize(t[1..])
  }

  /** A slash before every segment. */
  function Render(segments: seq<Text>): Text {
    if segments == [] then [] else [SLASH] + segments[0] + Render(segments[1..])
  }

  function AssertConfiguredPath(input: Text, roots: seq<Text>, isSecret: Text -> bool): Result<Text, PathError> {
    var cleaned := Sanitize(input);
    if !([SLASH] <= cleaned) then Err(NotAbsolute) else
    var segments := Segments(cleaned);
    if segments == [] || DOT_DOT in segments then Err(Traversal) else
    var normalized := Render(segments);
    if isSecret(normalized) then Err(Secret)
    else if roots == [] then Err(NoRoots)
    else if exists i | 0 <= i < |roots| :: Under(normalized, StripSlashes(roots[i])) then Ok(normalized)
    else Err(Outside)
  }

  /** A root written as its segments, up to trailing slashes: "/", "/srv" or "/srv/data/". */
  predicate Canonical(root: Text) {
    StripSlashes(root) == Render(Segments(root))
  }

  predicate Plain(segments: seq<Text>) {
    forall i | 0 <= i < |segments| :: Kept(segments[i]) && SLASH !in segments[i]
  }

  lemma {:induction false} KeepConcat(a: seq<Text>, b: seq<Text>)
    ensures Keep(a + b) == Keep(a) + Keep(b)
  {
    if a == [] {
      assert a + b == b;
    } else {
      assert (a + b)[1..] == a[1..] + b;
      KeepConcat(a[1..], b);
      AppendIsAssociative(if Kept(a[0]) then [a[0]] else [], Keep(a[1..]), Keep(b));
    }
  }

  lemma {:induction false} KeepPlain(segments: seq<Text>)
    requires Plain(segments)
    ensures Keep(segments) == segments
  {
    if segments != [] {
      KeepPlain(segments[1..]);
    }
  }

  lemma {:induction false} SplitHasNoSeparator(t: Text)
    ensures forall i | 0 <= i < |Split(t, SLASH)| :: SLASH !in Split(t, SLASH)[i]
  {
    if t != [] {
      SplitHasNoSeparator(t[1..]);
    }
  }

  lemma {:induction false} KeepIsPlain(parts: seq<Text>)
    requires forall i | 0 <= i < |parts| :: SLASH !in parts[i]
    ensures Plain(Keep(parts))
  {
    if parts != [] {
      KeepIsPlain(parts[1..]);
    }
  }

  lemma SegmentsArePlain(t: Text)
    ensures Plain(Segments(t))
  {
    SplitHasNoSeparator(t);
    KeepIsPlain(Split(t, SLASH));
  }

  lemma {:induction false} SplitPlain(s: Text)
    requires SLASH !in s
    ensures Split(s, SLASH) == [s]
  {
    if s != [] {
      SplitPlain(s[1..]);
      assert [s[0]] + s[1..] == s;
    }
  }

  lemma SplitAfterSlash(tail: Text)
    ensures Split([SLASH] + tail, SLASH) == [[]] + Split(tail, SLASH)
  {
    assert ([SLASH] + tail)[1..] == tail;
  }

  lemma SplitHeadThenRender(head: Text, rest: seq<Text>)
    requires SLASH !in head && rest != [] && Split(Render(rest), SLASH) == [[]] + rest
    ensures Split(head + Render(rest), SLASH) == [head] + rest
  {
    var tail := rest[0] + Render(rest[1..]);
    AppendIsAssociative([SLASH], rest[0], Render(rest[1..]));
    SplitAfterSlash(tail);
    assert ([[]] + Split(tail, SLASH))[1..] == Split(tail, SLASH) && ([[]] + rest)[1..] == rest;
    AppendIsAssociative(head, [SLASH], tail);
    SplitPlain(head);
    SplitConcat(head, SLASH, tail);
  }

  lemma {:induction false} SplitRender(segments: seq<Text>)
    requires Plain(segments)
    ensures Split(Render(segments), SLASH) == [[]] + segments
  {
    if segments != [] {
      var head, rest := segments[0], segments[1..];
      SplitRender(rest);
      if rest == [] {
        SplitPlain(head);
        assert head + Render(rest) == head;
      } else {
        SplitHeadThenRender(head, rest);
      }
      AppendIsAssociative([SLASH], head, Render(rest));
      SplitAfterSlash(head + Render(rest));
      HeadAndTail(segments);
    }
  }

  lemma SegmentsOfRender(segments: seq<Text>)
    requires Plain(segments)
    ensures Segments(Render(segments)) == segments
  {
    SplitRender(segments);
    KeepConcat([[]], segments);
    KeepPlain(segments);
  }

  lemma SegmentsConcat(a: Text, b: Text)
    ensures Segments(a + [SLASH] + b) == Segments(a) + Segments(b)
  {
    SplitConcat(a, SLASH, b);
    KeepConcat(Split(a, SLASH), Split(b, SLASH));
  }

  lemma SegmentsOfEmpty()
    ensures Segments([]) == []
  {
    var parts: seq<Text> := [[]];
    assert Split<Point>([], SLASH) == parts;
    assert !Kept(parts[0]) && Keep(parts[1..]) == [];
  }

  lemma {:induction false} SegmentsOfStripped(t: Text)
    ensures Segments(StripSlashes(t)) == Segments(t)
  {
    if t != [] && t[|t| - 1] == SLASH {
      var front := t[..|t| - 1];
      SegmentsOfStripped(front);
      assert t == front + [SLASH] + [];
      SegmentsConcat(front, []);
      SegmentsOfEmpty();
    }
  }

  lemma SegmentsOfClean(t: Text)
    ensures Segments(Clean(t)) == Segments(t)
  {
    SegmentsOfStripped(t);
    assert [SLASH] == [] + [SLASH] + [];
    SegmentsConcat([], []);
  }

  lemma {:induction false} RenderConcat(a: seq<Text>, b: seq<Text>)
    ensures Render(a + b) == Render(a) + Render(b)
  {
    if a == [] {
      assert a + b == b;
    } else {
      assert (a + b)[1..] == a[1..] + b;
      RenderConcat(a[1..], b);
    }
  }

  /** Passing the string test puts the path below the root, segment by segment, whatever the two strings are. */
  lemma UnderIsPrefix(path: Text, root: Text)
    requires Under(path, root)
    ensures Segments(root) <= Segments(path)
  {
    if path != root {
      var rest := path[|root| + 1..];
      assert path == root + [SLASH] + rest;
      SegmentsConcat(root, rest);
    }
  }

  /** On rendered segment lists the string test is exactly the prefix order. */
  lemma RenderUnder(segments: seq<Text>, root: seq<Text>)
    requires Plain(segments) && Plain(root)
    ensures Under(Render(segments), Render(root)) <==> root <= segments
  {
    if Under(Render(segments), Render(root)) {
      UnderIsPrefix(Render(segments), Render(root));
      SegmentsOfRender(segments);
      SegmentsOfRender(root);
    }
    if root <= segments {
      var rest := segments[|root|..];
      assert segments == root + rest;
      RenderConcat(root, rest);
    }
  }

  /** With canonical roots a path is accepted exactly when it is absolute, free of "..", not secret and below a root. */
  lemma AcceptsExactlyContained(input: Text, roots: seq<Text>, isSecret: Text -> bool)
    requires forall i | 0 <= i < |roots| :: Canonical(roots[i])
    ensures var cleaned := Sanitize(input);
            var segments := Segments(cleaned);
            AssertConfiguredPath(input, roots, isSecret).Ok? <==>
            && [SLASH] <= cleaned && segments != [] && DOT_DOT !in segments && !isSecret(Render(segments))
            && exists i | 0 <= i < |roots| :: Segments(roots[i]) <= segments
  {
    var segments := Segments(Sanitize(input));
    SegmentsArePlain(Sanitize(input));
    forall i | 0 <= i < |roots|
      ensures Under(Render(segments), StripSlashes(roots[i])) <==> Segments(roots[i]) <= segments
    {
      SegmentsArePlain(roots[i]);
      RenderUnder(segments, Segments(roots[i]));
    }
  }

  lemma {:induction false} SanitizeClean(t: Text)
    ensures SingleLine(Sanitize(t))
    ensures SingleLine(t) ==> Sanitize(t) == t
  {
    if t != [] {
      SanitizeClean(t[1..]);
      assert t == [t[0]] + t[1..];
    }
  }

  lemma {:induction false} SplitSingleLine(t: Text)
    requires SingleLine(t)
    ensures forall i | 0 <= i < |Split(t, SLASH)| :: SingleLine(Split(t, SLASH)[i])
  {
    if t != [] {
      SplitSingleLine(t[1..]);
    }
  }

  lemma {:induction false} KeepRenderSingleLine(parts: seq<Text>)
    requires forall i | 0 <= i < |parts| :: SingleLine(parts[i])
    ensures SingleLine(Render(Keep(parts)))
  {
    if parts != [] {
      KeepRenderSingleLine(parts[1..]);
      if Kept(parts[0]) {
        assert Keep(parts)[1..] == Keep(parts[1..]);
        assert Render(Keep(parts)) == [SLASH] + parts[0] + Render(Keep(parts[1..]));
        assert SingleLine(parts[0]);
      } else {
        assert Keep(parts) == Keep(parts[1..]);
      }
    }
  }

  /** The path returned has neither "." nor ".." and checking it again, under the same roots, returns it unchanged. */
  lemma AcceptedIsStable(input: Text, roots: seq<Text>, isSecret: Text -> bool)
    requires AssertConfiguredPath(input, roots, isSecret).Ok?
    ensures var path := AssertConfiguredPath(input, roots, isSecret).value;
            && DOT !in Split(path, SLASH) && DOT_DOT !in Split(path, SLASH)
            && AssertConfiguredPath(path, roots, isSecret) == Ok(path)
  {
    var cleaned := Sanitize(input);
    var segments := Segments(cleaned);
    var path := Render(segments);
    SegmentsArePlain(cleaned);
    SplitRender(segments);
    SegmentsOfRender(segments);
    SanitizeClean(input);
    SplitSingleLine(cleaned);
    KeepRenderSingleLine(Split(cleaned, SLASH));
    SanitizeClean(path);
    assert forall s | s in [[]] + segments :: s == [] || s in segments;
  }

  /** An allowed working directory lies below a root, segment by segment. */
  lemma AllowedCwdIsContained(cwd: Text, roots: seq<Text>)
    requires CwdLexicallyAllowed(cwd, roots)
    ensures DOT_DOT !in Segments(cwd)
    ensures exists i | 0 <= i < |roots| :: Segments(roots[i]) <= Segments(cwd)
  {
    var i :| 0 <= i < |roots| && Under(Clean(cwd), Clean(roots[i]));
    UnderIsPrefix(Clean(cwd), Clean(roots[i]));
    SegmentsOfClean(cwd);
    SegmentsOfClean(roots[i]);
    KeepIsSubset(Split(cwd, SLASH));
  }

  lemma {:induction false} KeepIsSubset(parts: seq<Text>)
    ensures forall s | s in Keep(parts) :: s in parts
  {
    if parts != [] {
      KeepIsSubset(parts[1..]);
    }
  }

  /**
    * For canonical paths the test is containment with one exception: the root "/" admits only "/" itself.
    */
  lemma AllowedCwdExactly(cwd: Text, root: Text)
    requires CwdWellFormed(cwd) && Canonical(cwd) && Canonical(root)
    ensures CwdLexicallyAllowed(cwd, [root]) <==>
            Segments(root) <= Segments(cwd) && (Segments(root) == [] ==> Segments(cwd) == [])
  {
    SegmentsArePlain(cwd);
    SegmentsArePlain(root);
    RenderUnder(Segments(cwd), Segments(root));
    assert CwdLexicallyAllowed(cwd, [root]) <==> Under(Clean(cwd), Clean([root][0]));
    if Segments(root) == [] && Segments(cwd) != [] {
      var first := Segments(cwd)[0];
      assert StripSlashes(cwd)[1] == first[0] != SLASH;
    }
  }
}

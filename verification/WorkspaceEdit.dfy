/** `workspace.edit`: replacing text by splitting a file on the old text and joining it with the new. */
module WorkspaceEdit {
  import opened Sequences
  import opened Texts
  import opened Wrappers

  /** UTF-16 code units, as JavaScript splits them. */
  type CodeUnit = u: int | 0 <= u < 0x1_0000
  type Code = seq<CodeUnit>

  /** The text stands at this position. */
  predicate StandsAt(s: Code, text: Code, i: nat) {
    i + |text| <= |s| && s[i..i + |text|] == text
  }

  /** The first position from p on where the text stands. */
  function FirstFrom(s: Code, text: Code, p: nat): (r: Option<nat>)
    requires p <= |s|
    ensures r.None? ==> forall j | p <= j :: !StandsAt(s, text, j)
    ensures r.Some? ==> && p <= r.value && StandsAt(s, text, r.value)
                        && forall j | p <= j < r.value :: !StandsAt(s, text, j)
    decreases |s| - p
  {
    if StandsAt(s, text, p) then Some(p) else if p == |s| then None else FirstFrom(s, text, p + 1)
  }

  function CodeUnits(s: Code): seq<Code> {
    seq(|s|, i requires 0 <= i < |s| => [s[i]])
  }

  /** The pieces from p on, between the places where the separator stands. */
  function SplitFrom(s: Code, sep: Code, p: nat): (r: seq<Code>)
    requires sep != [] && p <= |s|
    ensures |r| >= 1
    decreases |s| - p
  {
    var i := FirstFrom(s, sep, p);
    if i.None? then [s[p..]] else [s[p..i.value]] + SplitFrom(s, sep, i.value + |sep|)
  }

  /** `split` on a string: on the empty one it gives the code units. */
  function SplitOn(s: Code, sep: Code): seq<Code> {
    if sep == [] then CodeUnits(s) else SplitFrom(s, sep, 0)
  }

  predicate Contains(s: Code, text: Code) {
    exists i | 0 <= i <= |s| :: StandsAt(s, text, i)
  }

  lemma JoinStep(head: Code, pieces: seq<Code>, between: Code)
    requires pieces != []
    ensures Join([head] + pieces, between) == head + (between + Join(pieces, between))
  {
    assert ([head] + pieces)[1..] == pieces;
    AppendIsAssociative(head, between, Join(pieces, between));
  }

  lemma {:induction false} JoinUnits(s: Code, between: Code)
    ensures s != [] ==>
              Join(CodeUnits(s), between)
              == [s[0]] + if |s| == 1 then [] else between + Join(CodeUnits(s[1..]), between)
  {
    if |s| > 1 {
      assert CodeUnits(s) == [[s[0]]] + CodeUnits(s[1..]);
      JoinStep([s[0]], CodeUnits(s[1..]), between);
    }
  }

  lemma Rejoined(s: Code, sep: Code, p: nat, i: nat, rest: Code)
    requires p <= i && StandsAt(s, sep, i) && rest == s[i + |sep|..]
    ensures s[p..i] + (sep + rest) == s[p..]
  {
    assert s[p..] == s[p..i] + (s[i..i + |sep|] + s[i + |sep|..]);
  }

  lemma {:induction false} SplitFromThenJoin(s: Code, sep: Code, p: nat)
    requires sep != [] && p <= |s|
    ensures Join(SplitFrom(s, sep, p), sep) == s[p..]
    decreases |s| - p
  {
    var found := FirstFrom(s, sep, p);
    if found.Some? {
      var i, rest := found.value, found.value + |sep|;
      var pieces := SplitFrom(s, sep, rest);
      SplitFromThenJoin(s, sep, rest);
      JoinStep(s[p..i], pieces, sep);
      Rejoined(s, sep, p, i, Join(pieces, sep));
    }
  }

  lemma {:induction false} UnitsThenJoin(s: Code)
    ensures Join(CodeUnits(s), []) == s
  {
    if s != [] {
      JoinUnits(s, []);
      UnitsThenJoin(s[1..]);
      HeadAndTail(s);
    }
  }

  /** Splitting and joining with the same text gives the file back. */
  lemma SplitThenJoin(s: Code, sep: Code)
    ensures Join(SplitOn(s, sep), sep) == s
  {
    if sep == [] {
      UnitsThenJoin(s);
    } else {
      SplitFromThenJoin(s, sep, 0);
      assert s[0..] == s;
    }
  }

  lemma PieceIsFree(s: Code, sep: Code, p: nat, i: nat)
    requires sep != [] && p <= i <= |s| && forall j | p <= j < i :: !StandsAt(s, sep, j)
    ensures !Contains(s[p..i], sep)
  {
    forall j | 0 <= j <= i - p ensures !StandsAt(s[p..i], sep, j) {
      if j + |sep| <= i - p {
        assert !StandsAt(s, sep, p + j);
        SliceOfSlice(s, p, i, j, j + |sep|);
      }
    }
  }

  lemma {:induction false} PiecesFromAreFree(s: Code, sep: Code, p: nat, k: nat)
    requires sep != [] && p <= |s| && k < |SplitFrom(s, sep, p)|
    ensures !Contains(SplitFrom(s, sep, p)[k], sep)
    decreases |s| - p
  {
    match FirstFrom(s, sep, p)
    case None =>
      PieceIsFree(s, sep, p, |s|);
      assert s[p..|s|] == s[p..];
    case Some(i) =>
      PieceIsFree(s, sep, p, i);
      if k > 0 {
        PiecesFromAreFree(s, sep, i + |sep|, k - 1);
      }
  }

  /** No piece contains the separator. */
  lemma PiecesAreFree(s: Code, sep: Code, k: nat)
    requires sep != [] && k < |SplitOn(s, sep)|
    ensures !Contains(SplitOn(s, sep)[k], sep)
  {
    PiecesFromAreFree(s, sep, 0, k);
  }

  /* What an edit is meant to do, position by position. */

  /** From left to right: the old text where it stands, replaced and skipped; any other unit, kept. */
  function Replaced(s: Code, before: Code, after: Code, p: nat): Code
    requires before != [] && p <= |s|
    decreases |s| - p
  {
    if StandsAt(s, before, p) then after + Replaced(s, before, after, p + |before|)
    else if p == |s| then []
    else [s[p]] + Replaced(s, before, after, p + 1)
  }

  function Occurrences(s: Code, before: Code, p: nat): nat
    requires before != [] && p <= |s|
    decreases |s| - p
  {
    if StandsAt(s, before, p) then 1 + Occurrences(s, before, p + |before|)
    else if p == |s| then 0
    else Occurrences(s, before, p + 1)
  }

  lemma {:induction false} SkipTo(s: Code, before: Code, after: Code, p: nat, i: nat)
    requires before != [] && p <= i <= |s| && forall j | p <= j < i :: !StandsAt(s, before, j)
    ensures Replaced(s, before, after, p) == s[p..i] + Replaced(s, before, after, i)
    ensures Occurrences(s, before, p) == Occurrences(s, before, i)
    decreases i - p
  {
    if p < i {
      SkipTo(s, before, after, p + 1, i);
      assert s[p..i] == [s[p]] + s[p + 1..i];
      AppendIsAssociative([s[p]], s[p + 1..i], Replaced(s, before, after, i));
    }
  }

  lemma {:induction false} JoinReplaces(s: Code, before: Code, after: Code, p: nat)
    requires before != [] && p <= |s|
    ensures Join(SplitFrom(s, before, p), after) == Replaced(s, before, after, p)
    decreases |s| - p
  {
    var found := FirstFrom(s, before, p);
    if found.None? {
      SkipTo(s, before, after, p, |s|);
      assert s[p..|s|] == s[p..];
    } else {
      var i, rest := found.value, found.value + |before|;
      SkipTo(s, before, after, p, i);
      JoinReplaces(s, before, after, rest);
      JoinStep(s[p..i], SplitFrom(s, before, rest), after);
    }
  }

  lemma {:induction false} SplitCounts(s: Code, before: Code, p: nat)
    requires before != [] && p <= |s|
    ensures |SplitFrom(s, before, p)| - 1 == Occurrences(s, before, p)
    decreases |s| - p
  {
    var found := FirstFrom(s, before, p);
    SkipTo(s, before, [], p, if found.None? then |s| else found.value);
    if found.Some? {
      SplitCounts(s, before, found.value + |before|);
    }
  }

  /** Split and join replace exactly the leftmost occurrences that do not overlap, and count them. */
  lemma SplitJoinReplaces(s: Code, before: Code, after: Code)
    requires before != []
    ensures Join(SplitOn(s, before), after) == Replaced(s, before, after, 0)
    ensures |SplitOn(s, before)| - 1 == Occurrences(s, before, 0)
  {
    JoinReplaces(s, before, after, 0);
    SplitCounts(s, before, 0);
  }

  /* The operation. */

  datatype EditError = InvalidExpected | CountMismatch(count: int)

  /** `expected` is the number asked for, if it was an integer. */
  function EditStep(content: Code, before: Code, after: Code, expected: Option<int>): (Code, Result<int, EditError>) {
    if expected.None? || expected.value < 1 || expected.value > 100 then (content, Err(InvalidExpected))
    else
      var count := |SplitOn(content, before)| - 1;
      if count != expected.value then (content, Err(CountMismatch(count)))
      else (Join(SplitOn(content, before), after), Ok(count))
  }

  class TextFile {
    var content: Code

    constructor (content: Code)
      ensures this.content == content
    {
      this.content := content;
    }

    method Edit(before: Code, after: Code, expected: Option<int>) returns (r: Result<int, EditError>)
      modifies this
      ensures (content, r) == EditStep(old(content), before, after, expected)
    {
      if expected.None? || expected.value < 1 || expected.value > 100 {
        return Err(InvalidExpected);
      }
      var count := |SplitOn(content, before)| - 1;
      if count != expected.value {
        return Err(CountMismatch(count));
      }
      content := Join(SplitOn(content, before), after);
      r := Ok(count);
    }
  }

  /**
    * With a text to look for, an edit goes through exactly when it occurs the expected number of times, and then
    * replaces those occurrences and nothing else. Otherwise the file is as it was.
    */
  lemma EditsExactly(content: Code, before: Code, after: Code, expected: Option<int>)
    requires before != []
    ensures var (result, r) := EditStep(content, before, after, expected);
            && (r.Ok? <==> expected.Some? && 1 <= expected.value <= 100
                           && Occurrences(content, before, 0) == expected.value)
            && result == (if r.Ok? then Replaced(content, before, after, 0) else content)
            && (r.Ok? ==> r.value == expected.value)
            && (r.Err? && r.error.CountMismatch? ==> r.error.count == Occurrences(content, before, 0))
  {
    SplitJoinReplaces(content, before, after);
  }

  /** The new text between any two neighbours. */
  function Interspersed(s: Code, after: Code): Code {
    if |s| <= 1 then s else [s[0]] + after + Interspersed(s[1..], after)
  }

  /** Without one, an edit that expects one less than the file's length goes through and inserts everywhere. */
  lemma {:induction false} EmptyOldInserts(content: Code, after: Code, expected: Option<int>)
    ensures var (result, r) := EditStep(content, [], after, expected);
            && (r.Ok? <==> expected.Some? && 1 <= expected.value <= 100 && |content| == expected.value + 1)
            && result == (if r.Ok? then Interspersed(content, after) else content)
  {
    JoinIntersperses(content, after);
  }

  lemma {:induction false} JoinIntersperses(s: Code, after: Code)
    ensures Join(CodeUnits(s), after) == Interspersed(s, after)
  {
    if s != [] {
      JoinUnits(s, after);
      if |s| == 1 {
        assert s == [s[0]];
      } else {
        JoinIntersperses(s[1..], after);
        AppendIsAssociative([s[0]], after, Interspersed(s[1..], after));
      }
    }
  }
}

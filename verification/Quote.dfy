/** Quoting argument lists for a POSIX shell, against word splitting and quote removal as the shell does them. */
module Quote {
  import opened Texts
  import opened Wrappers

  const QUOTE: Point := 0x27
  const BACKSLASH: Point := 0x5C
  const BLANK: Point := 0x20
  const TAB: Point := 0x09
  const NEWLINE: Point := 0x0A

  /** Every single quote becomes a closing quote, an escaped quote and an opening quote. */
  function Escaped(s: Text): Text {
    if s == [] then []
    else (if s[0] == QUOTE then [QUOTE, BACKSLASH, QUOTE, QUOTE] else [s[0]]) + Escaped(s[1..])
  }

  function Shq(s: Text): Text {
    [QUOTE] + Escaped(s) + [QUOTE]
  }

  function Quoted(argv: seq<Text>): (r: seq<Text>)
    ensures |r| == |argv|
  {
    seq(|argv|, i requires 0 <= i < |argv| => Shq(argv[i]))
  }

  function BuildRemoteCommand(argv: seq<Text>): Text {
    Join(Quoted(argv), [BLANK])
  }

  /* The shell: sections 2.2.1, 2.2.2 and 2.3 of the POSIX.1-2017 Shell Command Language. */

  /** Characters without any meaning to the shell. */
  predicate Ordinary(p: Point) {
    IsAlnum(p) || p in Ascii("_./:-+,@%")
  }

  /**
    * The words of a line outside quotes; `word` is the one begun. No value when the shell would do more than split and
    * unquote: an operator, an expansion, a comment, a pattern, a line end, or quotes that do not close.
    */
  function Words(line: Text, word: Option<Text>): Option<seq<Text>>
    decreases |line|, 1
  {
    if line == [] then Some(if word.None? then [] else [word.value])
    else if line[0] == BLANK || line[0] == TAB then
      var rest :- Words(line[1..], None);
      Some(if word.None? then rest else [word.value] + rest)
    else if line[0] == QUOTE then UntilQuote(line[1..], word.GetOr([]))
    else if line[0] == BACKSLASH then
      if |line| == 1 then None
      else if line[1] == NEWLINE then Words(line[2..], word)
      else Words(line[2..], Some(word.GetOr([]) + [line[1]]))
    else if Ordinary(line[0]) then Words(line[1..], Some(word.GetOr([]) + [line[0]]))
    else None
  }

  /** Between single quotes everything stands for itself. */
  function UntilQuote(line: Text, word: Text): Option<seq<Text>>
    decreases |line|, 0
  {
    if line == [] then None
    else if line[0] == QUOTE then Words(line[1..], Some(word))
    else UntilQuote(line[1..], word + [line[0]])
  }

  /** A command line is a C string: it cannot carry a NUL. */
  function ShellWords(line: Text): Option<seq<Text>> {
    if 0 in line then None else Words(line, None)
  }

  lemma EscapedQuote(rest: Text, word: Text)
    ensures UntilQuote([QUOTE, BACKSLASH, QUOTE, QUOTE] + rest, word) == UntilQuote(rest, word + [QUOTE])
  {
    var line := [QUOTE, BACKSLASH, QUOTE, QUOTE] + rest;
    assert line[1..] == [BACKSLASH, QUOTE, QUOTE] + rest;
    assert UntilQuote(line, word) == Words([BACKSLASH, QUOTE, QUOTE] + rest, Some(word));
    assert ([BACKSLASH, QUOTE, QUOTE] + rest)[2..] == [QUOTE] + rest;
    assert Words([BACKSLASH, QUOTE, QUOTE] + rest, Some(word)) == Words([QUOTE] + rest, Some(word + [QUOTE]));
    assert ([QUOTE] + rest)[1..] == rest;
  }

  lemma {:induction false} EscapedIsRead(s: Text, word: Text, rest: Text)
    ensures UntilQuote(Escaped(s) + [QUOTE] + rest, word) == Words(rest, Some(word + s))
    decreases |s|
  {
    if s == [] {
      assert Escaped(s) + [QUOTE] + rest == [QUOTE] + rest && word + s == word;
    } else {
      var tail := Escaped(s[1..]) + [QUOTE] + rest;
      EscapedIsRead(s[1..], word + [s[0]], rest);
      assert word + [s[0]] + s[1..] == word + s;
      if s[0] == QUOTE {
        assert Escaped(s) + [QUOTE] + rest == [QUOTE, BACKSLASH, QUOTE, QUOTE] + tail;
        EscapedQuote(tail, word);
      } else {
        assert Escaped(s) + [QUOTE] + rest == [s[0]] + tail;
        assert ([s[0]] + tail)[1..] == tail;
      }
    }
  }

  lemma ShqIsRead(s: Text, rest: Text)
    ensures Words(Shq(s) + rest, None) == Words(rest, Some(s))
  {
    var line := Shq(s) + rest;
    assert line[1..] == Escaped(s) + [QUOTE] + rest;
    EscapedIsRead(s, [], rest);
    assert [] + s == s;
  }

  lemma {:induction false} CommandIsRead(argv: seq<Text>)
    ensures Words(BuildRemoteCommand(argv), None) == Some(argv)
  {
    if |argv| == 1 {
      assert BuildRemoteCommand(argv) == Shq(argv[0]) + [];
      ShqIsRead(argv[0], []);
      assert argv == [argv[0]];
    } else if |argv| > 1 {
      var rest := BuildRemoteCommand(argv[1..]);
      assert Quoted(argv)[1..] == Quoted(argv[1..]);
      assert BuildRemoteCommand(argv) == Shq(argv[0]) + ([BLANK] + rest);
      ShqIsRead(argv[0], [BLANK] + rest);
      assert ([BLANK] + rest)[1..] == rest;
      CommandIsRead(argv[1..]);
      assert [argv[0]] + argv[1..] == argv;
    }
  }

  predicate HasNul(argv: seq<Text>) {
    exists i | 0 <= i < |argv| :: 0 in argv[i]
  }

  lemma {:induction false} EscapedKeepsNul(s: Text)
    ensures 0 in Escaped(s) <==> 0 in s
  {
    if s != [] {
      EscapedKeepsNul(s[1..]);
      assert s == [s[0]] + s[1..];
    }
  }

  lemma NulInRest(argv: seq<Text>)
    requires argv != []
    ensures HasNul(argv) <==> 0 in argv[0] || HasNul(argv[1..])
  {
    assert forall i | 0 <= i < |argv[1..]| :: argv[1..][i] == argv[i + 1];
    if i :| 1 <= i < |argv| && 0 in argv[i] {
      assert 0 in argv[1..][i - 1];
    }
  }

  lemma {:induction false} CommandKeepsNul(argv: seq<Text>)
    ensures 0 in BuildRemoteCommand(argv) <==> HasNul(argv)
  {
    if argv != [] {
      EscapedKeepsNul(argv[0]);
      assert 0 in Shq(argv[0]) <==> 0 in argv[0];
      CommandKeepsNul(argv[1..]);
      assert Quoted(argv)[1..] == Quoted(argv[1..]);
      assert BuildRemoteCommand(argv)
          == if |argv| == 1 then Shq(argv[0]) else Shq(argv[0]) + [BLANK] + BuildRemoteCommand(argv[1..]);
      NulInRest(argv);
    }
  }

  /** The shell reads back exactly the arguments, whatever they contain, unless one of them contains a NUL. */
  lemma ShellReadsArguments(argv: seq<Text>)
    ensures ShellWords(BuildRemoteCommand(argv)) == if HasNul(argv) then None else Some(argv)
  {
    CommandIsRead(argv);
    CommandKeepsNul(argv);
  }

  /** Different argument lists give different commands. */
  lemma CommandsDiffer(a: seq<Text>, b: seq<Text>)
    requires BuildRemoteCommand(a) == BuildRemoteCommand(b)
    ensures a == b
  {
    CommandIsRead(a);
    CommandIsRead(b);
  }
}

/** The token loop of the parser: what lines a file holds, how to print lines so that they are read
    back exactly, and when a token can be empty. */
module TokenLines {
  import opened Tokenizer

  /** The arguments of one line and the line number reported for it. */
  datatype Line = Line(args: seq<string>, number: nat)

  function AtNewline(c: Cursor): Cursor { c.(line := c.line + 1) }

  /** The lines still to come, with `args` already read on the current one. Arguments that the end of
      the file cuts off are dropped, lines without arguments are skipped. */
  function Lines(c: Cursor, args: seq<string>): seq<Line>
    decreases Measure(c)
  {
    NextProgress(c);
    var r := Next(c);
    match r.token
    case Eof => []
    case Text(t) => Lines(r.next, args + [t])
    case Newline =>
      var next := AtNewline(r.next);
      if args == [] then Lines(next, []) else [Line(args, next.line)] + Lines(next, [])
  }

  /** The whole file as the parser sees it: a newline and a NUL are appended first. */
  function FileLines(contents: string): seq<Line> {
    Lines(Cursor(contents + ['\n', NUL], false, 0), [])
  }

  // ------------------------------------------------------------------ printing

  /** Inside quotes only a quote needs care: close, escape it, and open again. */
  function QuoteBody(t: string): string {
    if t == [] then []
    else (if t[0] == '"' then ['"', '\\', '"', '"'] else [t[0]]) + QuoteBody(t[1..])
  }

  function PrintToken(t: string): string { ['"'] + QuoteBody(t) + ['"'] }

  function PrintArgs(args: seq<string>): string
    requires args != []
  {
    if |args| == 1 then PrintToken(args[0]) + ['\n']
    else PrintToken(args[0]) + [' '] + PrintArgs(args[1..])
  }

  function PrintLines(lines: seq<seq<string>>): string
    requires Printable(lines)
  {
    if lines == [] then [] else PrintArgs(lines[0]) + PrintLines(lines[1..])
  }

  predicate NulFree(args: seq<string>) { forall t :: t in args ==> NUL !in t }

  predicate Printable(lines: seq<seq<string>>) {
    forall i :: 0 <= i < |lines| ==> lines[i] != [] && NulFree(lines[i])
  }

  function Numbered(lines: seq<seq<string>>, from: nat): seq<Line> {
    if lines == [] then [] else [Line(lines[0], from + 1)] + Numbered(lines[1..], from + 1)
  }

  /** A quote inside quotes is printed by leaving them, escaping it and entering them again. */
  lemma QuoteReadsBack(tail: string, acc: string, line: nat)
    ensures Quoted(['"', '\\', '"', '"'] + tail, acc, line) == Quoted(tail, acc + ['"'], line)
  {
    var s := ['"', '\\', '"', '"'] + tail;
    assert s[1..] == ['\\', '"', '"'] + tail && s[1..][1..] == ['"', '"'] + tail;
    assert s[1..][1..][1..] == ['"'] + tail && s[1..][1..][1..][1..] == tail;
    calc {
      Quoted(s, acc, line);
      Unquoted(s[1..], acc, line);
      Escaped(s[1..][1..], acc, line);
      Unquoted(s[1..][1..][1..], acc + ['"'], line);
      Quoted(tail, acc + ['"'], line);
    }
  }

  lemma CharReadsBack(c: char, tail: string, acc: string, line: nat)
    requires c != '"' && c != NUL
    ensures Quoted([c] + tail, acc, line) == Quoted(tail, acc + [c], line)
  {
    assert ([c] + tail)[1..] == tail;
  }

  lemma EndReadsBack(rest: string, acc: string, line: nat)
    ensures Quoted(['"'] + rest, acc, line) == Unquoted(rest, acc, line)
  {
    assert (['"'] + rest)[1..] == rest;
  }

  lemma QuoteBodySplits(t: string, rest: string)
    ensures QuoteBody(t) + ['"'] + rest ==
            if t == [] then ['"'] + rest
            else (if t[0] == '"' then ['"', '\\', '"', '"'] else [t[0]]) + (QuoteBody(t[1..]) + ['"'] + rest)
  {
  }

  lemma {:induction false} QuotedBodyReadsBack(t: string, rest: string, acc: string, line: nat)
    requires NUL !in t
    ensures Quoted(QuoteBody(t) + ['"'] + rest, acc, line) == Unquoted(rest, acc + t, line)
  {
    QuoteBodySplits(t, rest);
    if t == [] {
      assert acc + t == acc;
      EndReadsBack(rest, acc, line);
    } else {
      var tail := QuoteBody(t[1..]) + ['"'] + rest;
      QuotedBodyReadsBack(t[1..], rest, acc + [t[0]], line);
      assert acc + [t[0]] + t[1..] == acc + t;
      if t[0] == '"' { QuoteReadsBack(tail, acc, line); } else { CharReadsBack(t[0], tail, acc, line); }
    }
  }

  lemma {:induction false} TokenReadsBack(t: string, sep: char, rest: string, line: nat)
    requires NUL !in t && (sep == ' ' || sep == '\n')
    ensures Next(Cursor(PrintToken(t) + [sep] + rest, false, line)) == Step(Text(t), Cursor(rest, sep == '\n', line))
  {
    var s := PrintToken(t) + [sep] + rest;
    var tail := [sep] + rest;
    assert s[1..] == QuoteBody(t) + ['"'] + tail;
    QuotedBodyReadsBack(t, tail, [], line);
    assert [] + t == t && tail[1..] == rest;
  }

  lemma UnfoldText(c: Cursor, args: seq<string>, t: string, next: Cursor)
    requires Next(c) == Step(Text(t), next)
    ensures Lines(c, args) == Lines(next, args + [t])
  {
  }

  lemma UnfoldOwedNewline(c: Cursor, args: seq<string>)
    requires c.pending && args != []
    ensures Lines(c, args) == [Line(args, c.line + 1)] + Lines(Cursor(c.rest, false, c.line + 1), [])
  {
  }

  lemma LastArgReadsBack(t: string, rest: string, acc: seq<string>, line: nat)
    requires NUL !in t
    ensures Lines(Cursor(PrintToken(t) + ['\n'] + rest, false, line), acc)
         == [Line(acc + [t], line + 1)] + Lines(Cursor(rest, false, line + 1), [])
  {
    TokenReadsBack(t, '\n', rest, line);
    var owed := Cursor(rest, true, line);
    UnfoldText(Cursor(PrintToken(t) + ['\n'] + rest, false, line), acc, t, owed);
    UnfoldOwedNewline(owed, acc + [t]);
  }

  lemma ArgReadsBack(t: string, rest: string, acc: seq<string>, line: nat)
    requires NUL !in t
    ensures Lines(Cursor(PrintToken(t) + [' '] + rest, false, line), acc) == Lines(Cursor(rest, false, line), acc + [t])
  {
    TokenReadsBack(t, ' ', rest, line);
    UnfoldText(Cursor(PrintToken(t) + [' '] + rest, false, line), acc, t, Cursor(rest, false, line));
  }

  lemma PrintArgsSplits(args: seq<string>, rest: string)
    requires args != []
    ensures PrintArgs(args) + rest ==
            if |args| == 1 then PrintToken(args[0]) + ['\n'] + rest
            else PrintToken(args[0]) + [' '] + (PrintArgs(args[1..]) + rest)
  {
  }

  lemma {:induction false} LineReadsBack(args: seq<string>, rest: string, acc: seq<string>, line: nat)
    requires args != [] && NulFree(args)
    ensures Lines(Cursor(PrintArgs(args) + rest, false, line), acc)
         == [Line(acc + args, line + 1)] + Lines(Cursor(rest, false, line + 1), [])
  {
    PrintArgsSplits(args, rest);
    if |args| == 1 {
      assert acc + [args[0]] == acc + args;
      LastArgReadsBack(args[0], rest, acc, line);
    } else {
      assert acc + [args[0]] + args[1..] == acc + args;
      ArgReadsBack(args[0], PrintArgs(args[1..]) + rest, acc, line);
      LineReadsBack(args[1..], rest, acc + [args[0]], line);
    }
  }

  lemma {:induction false} PrintedLinesReadBack(lines: seq<seq<string>>, line: nat)
    requires Printable(lines)
    ensures Lines(Cursor(PrintLines(lines) + ['\n', NUL], false, line), []) == Numbered(lines, line)
  {
    if lines == [] {
      var s := PrintLines(lines) + ['\n', NUL];
      assert s[1..] == [NUL];
      var next := Cursor(s[1..], false, line + 1);
      assert Next(next).token == Eof;
      assert Lines(next, []) == [];
    } else {
      var rest := PrintLines(lines[1..]) + ['\n', NUL];
      assert PrintLines(lines) + ['\n', NUL] == PrintArgs(lines[0]) + rest;
      LineReadsBack(lines[0], rest, [], line);
      assert [] + lines[0] == lines[0];
      PrintedLinesReadBack(lines[1..], line + 1);
    }
  }

  /** Round trip: every list of lines of NUL-free tokens, whatever quotes, blanks, newlines, backslashes
      or hash signs they hold, is read back from its printed form, numbered one after the other. */
  lemma RoundTrip(lines: seq<seq<string>>)
    requires Printable(lines)
    ensures FileLines(PrintLines(lines)) == Numbered(lines, 0)
  {
    PrintedLinesReadBack(lines, 0);
  }

  // ------------------------------------------------------------------ every file

  function Args(lines: seq<Line>): seq<seq<string>> {
    if lines == [] then [] else [lines[0].args] + Args(lines[1..])
  }

  lemma {:induction false} LinesArePrintable(c: Cursor, args: seq<string>)
    requires NulFree(args)
    ensures Printable(Args(Lines(c, args)))
    decreases Measure(c)
  {
    NextProgress(c);
    var r := Next(c);
    match r.token
    case Eof =>
    case Text(t) => LinesArePrintable(r.next, args + [t]);
    case Newline =>
      var next := AtNewline(r.next);
      LinesArePrintable(next, []);
      if args != [] {
        assert Lines(c, args)[1..] == Lines(next, []);
      }
  }

  lemma {:induction false} ArgsOfNumbered(lines: seq<seq<string>>, from: nat)
    ensures Args(Numbered(lines, from)) == lines
  {
    if lines != [] {
      assert Numbered(lines, from)[1..] == Numbered(lines[1..], from + 1);
      ArgsOfNumbered(lines[1..], from + 1);
    }
  }

  /** Printing what was read from any file whatever, and reading it again, gives the same lines. */
  lemma Canonical(contents: string)
    ensures var read := Args(FileLines(contents));
            Printable(read) && Args(FileLines(PrintLines(read))) == read
  {
    LinesArePrintable(Cursor(contents + ['\n', NUL], false, 0), []);
    var read := Args(FileLines(contents));
    RoundTrip(read);
    ArgsOfNumbered(read, 0);
  }

  // ------------------------------------------------------------------ empty tokens

  /** Input that adds nothing to a token up to the token's end: empty quotes, line continuations,
      a backslash before a lone carriage return or before the end of the file. */
  predicate Silent(s: string)
    decreases |s|
  {
    var c := Head(s);
    if c == '"' then Head(s[1..]) == '"' && Silent(s[2..])
    else if c == '\\' then
      var e := Head(s[1..]);
      if e == '\r' && Head(s[2..]) != '\n' then Silent(s[2..])
      else if e == '\r' then Silent(EatBlanks(s[3..]))
      else if e == '\n' then Silent(EatBlanks(s[2..]))
      else e == NUL
    else c == NUL || IsBlank(c) || c == '\n'
  }

  lemma {:induction false} CollectedStays(s: string, acc: string, line: nat)
    requires acc != []
    ensures Unquoted(s, acc, line).token != Text([])
    ensures Quoted(s, acc, line).token != Text([])
    decreases |s|
  {
    if s != [] {
      CollectedStays(s[1..], acc, line);
      CollectedStays(s[1..], acc + [s[0]], line);
      if s[0] == '\\' && |s| >= 2 { EscapedKeeps(s[1..], acc, line); }
    }
  }

  lemma {:induction false} EscapedKeeps(s: string, acc: string, line: nat)
    requires acc != [] && s != []
    ensures Escaped(s, acc, line).token != Text([])
    decreases |s|
  {
    CollectedStays(s[1..], acc, line);
    CollectedStays(s[1..], acc + [Unescape(s[0])], line);
    CollectedStays(EatBlanks(s[1..]), acc, line + 1);
    if |s| >= 2 { CollectedStays(EatBlanks(s[2..]), acc, line + 1); }
  }

  /** A token is empty exactly when its input is silent. */
  lemma {:induction false} EmptyTokenIffSilent(s: string, line: nat)
    ensures Unquoted(s, [], line).token == Text([]) <==> Silent(s)
    decreases |s|
  {
    var c := Head(s);
    if c == '"' {
      var t := s[1..];
      var d := Head(t);
      if d == '"' {
        assert t[1..] == s[2..];
        EmptyTokenIffSilent(s[2..], line);
      } else if d != NUL {
        CollectedStays(t[1..], [] + [d], line);
      }
    } else if c == '\\' {
      EmptyAfterBackslash(s, line);
    } else if c != NUL && !IsBlank(c) && c != '\n' {
      CollectedStays(s[1..], [] + [c], line);
    }
  }

  lemma {:induction false} EmptyAfterBackslash(s: string, line: nat)
    requires Head(s) == '\\'
    ensures Unquoted(s, [], line).token == Text([]) <==> Silent(s)
    decreases |s|, 0
  {
    var t := s[1..];
    var e := Head(t);
    if e != NUL {
      assert t[1..] == s[2..];
      if e == '\r' && Head(s[2..]) == '\n' {
        assert t[2..] == s[3..];
        EmptyTokenIffSilent(EatBlanks(s[3..]), line + 1);
      } else if e == '\r' {
        EmptyTokenIffSilent(s[2..], line);
      } else if e == '\n' {
        EmptyTokenIffSilent(EatBlanks(s[2..]), line + 1);
      } else {
        CollectedStays(s[2..], [] + [Unescape(e)], line);
      }
    }
  }

  /** So the parser does hand out empty strings: two quotes are one. */
  lemma EmptyStringIsRead()
    ensures FileLines(['"', '"']) == [Line([""], 1)]
  {
    assert PrintLines([[""]]) == ['"', '"', '\n'] by { assert PrintArgs([""]) == ['"', '"', '\n']; }
    var s := ['"', '"'] + ['\n', NUL];
    assert s == PrintArgs([""]) + [NUL];
    LineReadsBack([""], [NUL], [], 0);
    assert Next(Cursor([NUL], false, 1)).token == Eof;
    assert Lines(Cursor([NUL], false, 1), []) == [];
    assert [] + [""] == [""];
  }
}

/** The rc-file scanner: a pure tokenizer on strings, and the scanner of init/tokenizer.cpp,
    which un-escapes each token into the very buffer it is still reading. */
module Tokenizer {

  const NUL: char := '\0'

  datatype Token = Eof | Newline | Text(text: string)

  /** What is left to read, whether a newline token is owed, and the continuation lines counted so far. */
  datatype Cursor = Cursor(rest: string, pending: bool, line: nat)

  datatype Step = Step(token: Token, next: Cursor)

  predicate IsBlank(c: char) { c == ' ' || c == '\t' || c == '\r' }

  /** The byte under the read pointer; the end of the string reads as the terminating NUL. */
  function Head(s: string): char { if s == [] then NUL else s[0] }

  /** The rest of the string from the end of the current line on. */
  function ToLineEnd(s: string): (r: string)
    ensures |r| <= |s|
  {
    if Head(s) == NUL || Head(s) == '\n' then s else ToLineEnd(s[1..])
  }

  function EatBlanks(s: string): (r: string)
    ensures |r| <= |s|
  {
    if Head(s) == ' ' || Head(s) == '\t' then EatBlanks(s[1..]) else s
  }

  /** The token that starts outside quotes, with `acc` already collected. */
  function Unquoted(s: string, acc: string, line: nat): Step
    decreases |s|
  {
    var c := Head(s);
    if c == NUL then Step(Text(acc), Cursor(s, false, line))
    else if IsBlank(c) then Step(Text(acc), Cursor(s[1..], false, line))
    else if c == '\n' then Step(Text(acc), Cursor(s[1..], true, line))
    else if c == '"' then Quoted(s[1..], acc, line)
    else if c == '\\' then Escaped(s[1..], acc, line)
    else Unquoted(s[1..], acc + [c], line)
  }

  /** The same token inside quotes: no escapes here, and the end of the file swallows the token. */
  function Quoted(s: string, acc: string, line: nat): Step
    decreases |s|
  {
    var c := Head(s);
    if c == NUL then Step(Eof, Cursor(s, false, line))
    else if c == '"' then Unquoted(s[1..], acc, line)
    else Quoted(s[1..], acc + [c], line)
  }

  function Unescape(c: char): char {
    match c case 'n' => '\n' case 'r' => '\r' case 't' => '\t' case _ => c
  }

  /** The same token just after a backslash. */
  function Escaped(s: string, acc: string, line: nat): Step
    decreases |s|
  {
    var c := Head(s);
    if c == NUL then Step(Text(acc), Cursor(s, false, line))
    else if c == '\r' && Head(s[1..]) != '\n' then Unquoted(s[1..], acc, line)
    else if c == '\r' then Unquoted(EatBlanks(s[2..]), acc, line + 1)
    else if c == '\n' then Unquoted(EatBlanks(s[1..]), acc, line + 1)
    else Unquoted(s[1..], acc + [Unescape(c)], line)
  }

  function Scan(s: string, line: nat): Step
  {
    var c := Head(s);
    if c == NUL then Step(Eof, Cursor(s, false, line))
    else if c == '\n' then Step(Newline, Cursor(s[1..], false, line))
    else if IsBlank(c) then Scan(s[1..], line)
    else if c == '#' then
      var r := ToLineEnd(s);
      if Head(r) == '\n' then Step(Newline, Cursor(r[1..], false, line))
      else Step(Eof, Cursor(r, false, line))
    else Unquoted(s, [], line)
  }

  function Next(c: Cursor): Step
  {
    if c.pending then Step(Newline, c.(pending := false)) else Scan(c.rest, c.line)
  }

  function Resume(quoted: bool, s: string, acc: string, line: nat): Step {
    if quoted then Quoted(s, acc, line) else Unquoted(s, acc, line)
  }

  /** The C string that starts at `at`: everything before the next NUL. */
  function CString(buf: string, at: nat): string
    requires at <= |buf|
    decreases |buf| - at
  {
    if at == |buf| || buf[at] == NUL then [] else [buf[at]] + CString(buf, at + 1)
  }

  lemma {:induction false} CStringIs(buf: string, at: nat, text: string)
    requires at + |text| < |buf| && buf[at..at + |text|] == text && NUL !in text
    requires buf[at + |text|] == NUL
    ensures CString(buf, at) == text
    decreases |text|
  {
    if text != [] {
      assert buf[at] == text[0];
      assert buf[at + 1..at + 1 + |text[1..]|] == text[1..];
      CStringIs(buf, at + 1, text[1..]);
    }
  }

  // ------------------------------------------------------------------ progress

  /** A step inside a token: it reads on, and what it collects stays free of NUL. */
  ghost predicate Reads(r: Step, s: string) {
    |r.next.rest| <= |s| && !r.token.Newline? && (r.token.Text? ==> NUL !in r.token.text)
  }

  lemma {:induction false} UnquotedReads(s: string, acc: string, line: nat)
    requires NUL !in acc
    ensures Reads(Unquoted(s, acc, line), s)
    decreases |s|, 1
  {
    var c := Head(s);
    if c == NUL || IsBlank(c) || c == '\n' {
    } else if c == '"' {
      QuotedReads(s[1..], acc, line);
    } else if c == '\\' {
      EscapedReads(s[1..], acc, line);
    } else {
      UnquotedReads(s[1..], acc + [c], line);
    }
  }

  lemma {:induction false} QuotedReads(s: string, acc: string, line: nat)
    requires NUL !in acc
    ensures Reads(Quoted(s, acc, line), s)
    decreases |s|, 1
  {
    var c := Head(s);
    if c == NUL {
    } else if c == '"' {
      UnquotedReads(s[1..], acc, line);
    } else {
      QuotedReads(s[1..], acc + [c], line);
    }
  }

  lemma {:induction false} EscapedReads(s: string, acc: string, line: nat)
    requires NUL !in acc
    ensures Reads(Escaped(s, acc, line), s)
    decreases |s|, 1
  {
    var c := Head(s);
    if c == NUL {
    } else if c == '\r' && Head(s[1..]) != '\n' {
      UnquotedReads(s[1..], acc, line);
    } else if c == '\r' {
      UnquotedReads(EatBlanks(s[2..]), acc, line + 1);
    } else if c == '\n' {
      UnquotedReads(EatBlanks(s[1..]), acc, line + 1);
    } else {
      UnquotedReads(s[1..], acc + [Unescape(c)], line);
    }
  }

  ghost function Measure(c: Cursor): nat { 2 * |c.rest| + if c.pending then 1 else 0 }

  /** Every token but the end of file uses up input, and no text holds a NUL byte. */
  lemma {:induction false} NextProgress(c: Cursor)
    ensures var r := Next(c);
            && (r.token != Eof ==> Measure(r.next) < Measure(c))
            && (r.token.Text? ==> NUL !in r.token.text)
  {
    if !c.pending { ScanProgress(c.rest, c.line); }
  }

  lemma {:induction false} ScanProgress(s: string, line: nat)
    ensures var r := Scan(s, line);
            && |r.next.rest| <= |s|
            && (r.token != Eof ==> |r.next.rest| < |s|)
            && (r.token.Text? ==> NUL !in r.token.text)
  {
    var c := Head(s);
    if c == NUL || c == '\n' {
    } else if IsBlank(c) {
      ScanProgress(s[1..], line);
    } else if c == '#' {
    } else {
      if c == '"' { QuotedReads(s[1..], [], line); }
      else if c == '\\' { EscapedReads(s[1..], [], line); }
      else { UnquotedReads(s[1..], [] + [c], line); }
    }
  }

  // ------------------------------------------------------------------ the in-place scanner

  datatype Kind = T_EOF | T_TEXT | T_NEWLINE

  /** `struct parse_state`, its pointers as indices into the buffer they point into. */
  class ParseState {
    const buf: array<char>
    var ptr: nat
    var text: nat
    var line: nat
    var nexttoken: bool

    ghost predicate Valid()
      reads this, buf
    {
      ptr < buf.Length && buf[buf.Length - 1] == NUL
    }

    ghost function View(): Cursor
      requires Valid()
      reads this, buf
    {
      Cursor(buf[ptr..], nexttoken, line)
    }

    constructor (data: array<char>)
      requires data.Length > 0 && data[data.Length - 1] == NUL
      ensures buf == data && Valid() && View() == Cursor(data[..], false, 0)
    {
      buf := data;
      ptr, text, line, nexttoken := 0, 0, 0, false;
      new;
      assert data[0..] == data[..];
    }

    /** One call of the scanner is one step of the pure tokenizer on the unread bytes: what is still
        unread is untouched, and a text token is the C string left at `text`. */
    method NextToken() returns (kind: Kind)
      requires Valid()
      modifies this, buf
      ensures Valid() && ptr >= old(ptr)
      ensures View() == Next(old(View())).next
      ensures buf[ptr..] == old(buf[..])[ptr..] && buf[..old(ptr)] == old(buf[..ptr])
      ensures Returned(kind, Next(old(View())).token)
      ensures kind == T_TEXT ==> old(ptr) <= text
    {
      var x := ptr;
      if nexttoken {
        nexttoken := false;
        return T_NEWLINE;
      }
      x := SkipSpace(x);
      assert buf[x..] == buf[..][x..];
      kind := ScanFrom(x);
    }

    /** The scanner on a byte that is not blank. */
    method ScanFrom(from: nat) returns (kind: Kind)
      requires Valid() && !nexttoken && ptr <= from < buf.Length && !IsBlank(buf[from])
      modifies this, buf
      ensures Valid() && ptr >= from
      ensures View() == Scan(old(buf[..])[from..], old(line)).next
      ensures buf[ptr..] == old(buf[..])[ptr..] && buf[..from] == old(buf[..])[..from]
      ensures Returned(kind, Scan(old(buf[..])[from..], old(line)).token)
      ensures kind == T_TEXT ==> text == from
    {
      var x := from;
      Unread(buf[..], x);
      if buf[x] == NUL {
        ptr := x;
        return T_EOF;
      }
      if buf[x] == '\n' {
        ptr := x + 1;
        return T_NEWLINE;
      }
      if buf[x] == '#' {
        x := SkipComment(x);
        assert buf[x..] == buf[..][x..] == ToLineEnd(buf[..][from..]);
        Unread(buf[..], x);
        if buf[x] == '\n' {
          ptr := x + 1;
          return T_NEWLINE;
        }
        ptr := x;
        return T_EOF;
      }
      text := x;
      kind := ScanText(x);
    }

    /** The returned token, its text read back from the buffer as the caller does. */
    ghost predicate Returned(kind: Kind, token: Token)
      reads this, buf
    {
      match token
      case Eof => kind == T_EOF
      case Newline => kind == T_NEWLINE
      case Text(t) => kind == T_TEXT && text < buf.Length && CString(buf[..], text) == t
    }

    /** The string the caller makes of `state.text`. */
    method Text() returns (t: string)
      requires text < buf.Length && buf[buf.Length - 1] == NUL
      ensures t == CString(buf[..], text)
    {
      var x := text;
      t := [];
      while buf[x] != NUL
        invariant text <= x < buf.Length && t + CString(buf[..], x) == CString(buf[..], text)
        decreases buf.Length - x
      {
        t := t + [buf[x]];
        x := x + 1;
      }
    }

    method SkipSpace(from: nat) returns (x: nat)
      requires Valid() && from < buf.Length
      ensures from <= x < buf.Length && !IsBlank(buf[x])
      ensures Scan(buf[x..], line) == Scan(buf[from..], line)
    {
      x := from;
      while buf[x] == ' ' || buf[x] == '\t' || buf[x] == '\r'
        invariant from <= x < buf.Length
        invariant Scan(buf[x..], line) == Scan(buf[from..], line)
        decreases buf.Length - x
      {
        Unread(buf[..], x);
        x := x + 1;
      }
    }

    method SkipComment(from: nat) returns (x: nat)
      requires Valid() && from < buf.Length
      ensures from <= x < buf.Length && (buf[x] == NUL || buf[x] == '\n')
      ensures buf[x..] == ToLineEnd(buf[..][from..])
    {
      x := from;
      while buf[x] != NUL && buf[x] != '\n'
        invariant from <= x < buf.Length
        invariant ToLineEnd(buf[x..]) == ToLineEnd(buf[from..])
        decreases buf.Length - x
      {
        Unread(buf[..], x);
        x := x + 1;
      }
      Unread(buf[..], x);
      assert buf[..][from..] == buf[from..];
    }

    /** The states `text`, `textresume` and `textdone` of the scanner: `s` writes, `x` reads, `s` never passes `x`. */
    method ScanText(from: nat) returns (kind: Kind)
      requires Valid() && !nexttoken && from < buf.Length && text == from
      modifies this, buf
      ensures Valid() && ptr >= from && text == from
      ensures View() == Unquoted(old(buf[..])[from..], [], old(line)).next
      ensures buf[ptr..] == old(buf[..])[ptr..] && buf[..from] == old(buf[..])[..from]
      ensures Returned(kind, Unquoted(old(buf[..])[from..], [], old(line)).token)
    {
      ghost var orig := buf[..];
      ghost var all := Unquoted(orig[from..], [], line);
      var x, s := from, from;
      assert buf[from..from] == [];
      var quoted, done := false, false;
      kind := T_EOF;
      while !done
        invariant text == from && buf[..from] == orig[..from]
        invariant !done ==> Scanning(orig, x, s) && !nexttoken && Resume(quoted, orig[x..], buf[from..s], line) == all
        invariant done ==> Valid() && ptr >= from && View() == all.next && buf[ptr..] == orig[ptr..] && Returned(kind, all.token)
        decreases !done, buf.Length - x
      {
        if quoted {
          done, quoted, x, s := QuotedStep(x, s, orig);
          kind := T_EOF;
        } else if buf[x] == '\\' {
          done, x, s := EscapeStep(x, s, orig);
          kind := T_TEXT;
        } else {
          done, quoted, x, s := PlainStep(x, s, orig);
          kind := T_TEXT;
        }
      }
    }

    /** The scanner stands between two bytes of a token: it has written up to `s` and read up to `x`. */
    ghost predicate Scanning(orig: string, x: nat, s: nat)
      reads this, buf
    {
      && text <= s <= x < buf.Length == |orig| && orig[buf.Length - 1] == NUL
      && buf[x..] == orig[x..]
      && NUL !in buf[text..s]
    }

    method QuotedStep(x0: nat, s0: nat, ghost orig: string) returns (done: bool, quoted: bool, x: nat, s: nat)
      requires Scanning(orig, x0, s0)
      modifies this`ptr, buf
      ensures buf[..text] == old(buf[..text]) && x <= buf.Length
      ensures var now := Quoted(orig[x0..], old(buf[text..s0]), line);
              if done then ptr >= x0 && Valid() && buf[ptr..] == orig[ptr..] && now == Step(Eof, Cursor(buf[ptr..], false, line))
              else x > x0 && Scanning(orig, x, s) && Resume(quoted, orig[x..], buf[text..s], line) == now
    {
      Unread(orig, x0);
      var c := buf[x0];
      x, s, done, quoted := x0, s0, false, true;
      if c == NUL {
        ptr := x;
        done := true;
        return;
      }
      x := x + 1;
      if c == '"' {
        quoted := false;
      } else {
        Put(s, c, x, orig);
        s := s + 1;
      }
    }

    method EscapeStep(x0: nat, s0: nat, ghost orig: string) returns (done: bool, x: nat, s: nat)
      requires Scanning(orig, x0, s0) && buf[x0] == '\\'
      modifies this`ptr, this`line, buf
      ensures buf[..text] == old(buf[..text]) && x <= buf.Length
      ensures var now := Unquoted(orig[x0..], old(buf[text..s0]), old(line));
              if done then Finished(now, orig, x0) && now.next == Cursor(buf[ptr..], false, line)
              else x > x0 && Scanning(orig, x, s) && Unquoted(orig[x..], buf[text..s], line) == now
    {
      Unread(orig, x0);
      x, s, done := x0 + 1, s0, false;
      Unread(orig, x);
      ghost var now := Escaped(orig[x..], buf[text..s], line);
      assert now == Unquoted(orig[x0..], buf[text..s], line);
      var e := buf[x];
      if e == NUL {
        Finish(s, x, orig);
        done := true;
      } else if e == '\r' || e == '\n' {
        x := EscapeBreak(x, s, orig);
      } else {
        x, s := EscapeChar(x, s, orig);
      }
    }

    /** A carriage return or line break after a backslash: skipped, with what belongs to it. */
    method EscapeBreak(x0: nat, s: nat, ghost orig: string) returns (x: nat)
      requires Scanning(orig, x0, s) && (buf[x0] == '\r' || buf[x0] == '\n')
      modifies this`line
      ensures x > x0 && Scanning(orig, x, s)
      ensures Unquoted(orig[x..], buf[text..s], line) == Escaped(orig[x0..], buf[text..s], old(line))
    {
      Unread(orig, x0);
      if buf[x0] == '\r' && buf[x0 + 1] != '\n' {
        x := x0 + 1;
      } else {
        x := ContinueLine(x0, orig);
      }
    }

    /** The byte after a backslash, un-escaped and put in place. */
    method EscapeChar(x0: nat, s0: nat, ghost orig: string) returns (x: nat, s: nat)
      requires Scanning(orig, x0, s0) && s0 < x0 && buf[x0] != NUL && buf[x0] != '\r' && buf[x0] != '\n'
      modifies buf
      ensures buf[..text] == old(buf[..text]) && x == x0 + 1 && Scanning(orig, x, s)
      ensures Unquoted(orig[x..], buf[text..s], line) == Escaped(orig[x0..], old(buf[text..s0]), line)
    {
      Unread(orig, x0);
      x := x0 + 1;
      Put(s0, Unescape(buf[x0]), x, orig);
      s := s0 + 1;
    }

    method PlainStep(x0: nat, s0: nat, ghost orig: string) returns (done: bool, quoted: bool, x: nat, s: nat)
      requires Scanning(orig, x0, s0) && buf[x0] != '\\' && !nexttoken
      modifies this`ptr, this`nexttoken, buf
      ensures buf[..text] == old(buf[..text]) && x <= buf.Length
      ensures var now := Unquoted(orig[x0..], old(buf[text..s0]), line);
              if done then Finished(now, orig, x0) && now.next == Cursor(buf[ptr..], nexttoken, line)
              else x > x0 && !nexttoken && Scanning(orig, x, s) && Resume(quoted, orig[x..], buf[text..s], line) == now
    {
      Unread(orig, x0);
      var c := buf[x0];
      x, s, done, quoted := x0, s0, false, false;
      if c == NUL {
        Finish(s, x, orig);
        done := true;
      } else {
        x := x + 1;
        if c == ' ' || c == '\t' || c == '\r' {
          Finish(s, x, orig);
          done := true;
        } else if c == '\n' {
          nexttoken := true;
          Finish(s, x, orig);
          done := true;
        } else if c == '"' {
          quoted := true;
        } else {
          Put(s, c, x, orig);
          s := s + 1;
        }
      }
    }

    ghost predicate Finished(now: Step, orig: string, from: nat)
      requires buf.Length == |orig|
      reads this, buf
    {
      from <= ptr && Valid() && buf[ptr..] == orig[ptr..] && Returned(T_TEXT, now.token) && now.token.Text?
    }

    lemma Unread(orig: string, x: nat)
      requires x < buf.Length == |orig| && buf[x..] == orig[x..] && orig[buf.Length - 1] == NUL
      ensures buf[x] == orig[x] == Head(orig[x..])
      ensures x + 1 < buf.Length ==> buf[x + 1] == orig[x + 1] == Head(orig[x..][1..]) && orig[x..][1..] == orig[x + 1..]
      ensures x + 1 < buf.Length ==> buf[x + 1..] == orig[x + 1..]
      ensures x + 2 < buf.Length ==> orig[x..][2..] == orig[x + 2..]
      ensures orig[x] != NUL ==> x + 1 < buf.Length
    {
    }

    /** The rest of a line continuation: over the line break and the blanks that follow it. */
    method ContinueLine(from: nat, ghost orig: string) returns (x: nat)
      requires from < buf.Length == |orig| && buf[from..] == orig[from..] && orig[buf.Length - 1] == NUL
      requires buf[from] == '\n' || (from + 1 < buf.Length && buf[from] == '\r' && buf[from + 1] == '\n')
      modifies this`line
      ensures line == old(line) + 1
      ensures from < x < buf.Length && buf[x..] == orig[x..]
      ensures orig[from] == buf[from] && from + 1 < buf.Length
      ensures orig[x..] == if orig[from] == '\r' then EatBlanks(orig[from..][2..]) else EatBlanks(orig[from..][1..])
    {
      x := from;
      Unread(orig, x);
      if buf[x] == '\r' {
        x := x + 1;
        Unread(orig, x);
      }
      line := line + 1;
      x := x + 1;
      x := SkipBlanks(x, orig);
    }

    /** `*s++ = c` with the read pointer already past the byte that `c` came from. */
    method Put(s: nat, c: char, x: nat, ghost orig: string)
      requires text <= s < x < buf.Length == |orig| && c != NUL && buf[x..] == orig[x..]
      modifies buf
      ensures buf[x..] == orig[x..] && buf[..text] == old(buf[..text])
      ensures buf[text..s + 1] == old(buf[text..s]) + [c]
    {
      buf[s] := c;
    }

    /** `textdone`: terminate the collected text and leave the read pointer at `x`. */
    method Finish(s: nat, x: nat, ghost orig: string)
      requires text <= s <= x < buf.Length == |orig| && buf[x..] == orig[x..] && orig[buf.Length - 1] == NUL
      requires s == x ==> buf[x] == NUL
      requires NUL !in buf[text..s]
      modifies this`ptr, buf
      ensures ptr == x && buf[x..] == orig[x..] && Valid() && buf[..text] == old(buf[..text])
      ensures CString(buf[..], text) == old(buf[text..s])
    {
      ptr := x;
      ghost var t := buf[text..s];
      buf[s] := NUL;
      assert buf[..][text..text + |t|] == t;
      CStringIs(buf[..], text, t);
      assert buf[buf.Length - 1] == NUL by {
        assert buf[x..][buf.Length - 1 - x] == orig[x..][buf.Length - 1 - x];
      }
    }

    method SkipBlanks(from: nat, ghost orig: string) returns (x: nat)
      requires from < buf.Length == |orig| && buf[from..] == orig[from..] && orig[buf.Length - 1] == NUL
      ensures from <= x < buf.Length && buf[x..] == orig[x..] && orig[x..] == EatBlanks(orig[from..])
    {
      x := from;
      while buf[x] == ' ' || buf[x] == '\t'
        invariant from <= x < buf.Length && buf[x..] == orig[x..]
        invariant EatBlanks(orig[x..]) == EatBlanks(orig[from..])
        decreases buf.Length - x
      {
        Unread(orig, x);
        x := x + 1;
      }
      Unread(orig, x);
    }
  }
}

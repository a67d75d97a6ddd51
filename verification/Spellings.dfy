/** Every way to write a token, a line and a file: plain characters, quotes, escapes, continued lines, blanks
    and comments. Whichever is chosen, the same arguments are read back, with the line numbers of the text. */
module Spellings {
  import opened Wrappers
  import opened Tokenizer
  import opened TokenLines

  // ------------------------------------------------------------------ tokens

  /** A part of a token as it can be written. */
  datatype Piece =
    | Plain(c: char)
    | InQuotes(text: string)
    | EscapedNewline
    | EscapedReturn
    | EscapedTab
    | EscapedSelf(c: char)
    | LoneReturn
    | Continued(cr: bool, blanks: string)

  predicate Blanks(s: string) { forall i :: 0 <= i < |s| ==> s[i] == ' ' || s[i] == '\t' }

  /** Outside quotes a blank, a line break, a quote or a backslash does not stand for itself. After a
      backslash `n`, `r`, `t` and line breaks do not. */
  predicate Writable(p: Piece) {
    match p
    case Plain(c) => c != NUL && c != ' ' && c != '\t' && c != '\r' && c != '\n' && c != '"' && c != '\\'
    case InQuotes(text) => NUL !in text && '"' !in text
    case EscapedSelf(c) => c != NUL && c != 'n' && c != 'r' && c != 't' && c != '\r' && c != '\n'
    case Continued(_, blanks) => Blanks(blanks)
    case _ => true
  }

  function Written(p: Piece): string {
    match p
    case Plain(c) => [c]
    case InQuotes(text) => ['"'] + text + ['"']
    case EscapedNewline => ['\\', 'n']
    case EscapedReturn => ['\\', 'r']
    case EscapedTab => ['\\', 't']
    case EscapedSelf(c) => ['\\', c]
    case LoneReturn => ['\\', '\r']
    case Continued(cr, blanks) => (if cr then ['\\', '\r', '\n'] else ['\\', '\n']) + blanks
  }

  function Meant(p: Piece): string {
    match p
    case Plain(c) => [c]
    case InQuotes(text) => text
    case EscapedNewline => ['\n']
    case EscapedReturn => ['\r']
    case EscapedTab => ['\t']
    case EscapedSelf(c) => [c]
    case LoneReturn => []
    case Continued(_, _) => []
  }

  function Breaks(p: Piece): nat { if p.Continued? then 1 else 0 }

  /** What may follow: a line feed would join a lone carriage return, blanks those of a continued line. */
  predicate Follows(p: Piece, tail: string) {
    match p
    case LoneReturn => Head(tail) != '\n'
    case Continued(_, _) => Head(tail) != ' ' && Head(tail) != '\t'
    case _ => true
  }

  lemma Joins<T>(a: seq<T>, b: seq<T>, c: seq<T>)
    ensures a + b + c == a + (b + c)
  {
  }

  lemma {:induction false} QuotedTextReads(text: string, tail: string, acc: string, line: nat)
    requires NUL !in text && '"' !in text
    ensures Quoted(text + ['"'] + tail, acc, line) == Unquoted(tail, acc + text, line)
  {
    var s := text + ['"'] + tail;
    if text == [] {
      assert s[1..] == tail && acc + text == acc;
    } else {
      assert s[1..] == text[1..] + ['"'] + tail;
      QuotedTextReads(text[1..], tail, acc + [text[0]], line);
      assert acc + [text[0]] + text[1..] == acc + text;
    }
  }

  lemma QuotesRead(text: string, tail: string, acc: string, line: nat)
    requires NUL !in text && '"' !in text
    ensures Unquoted(['"'] + text + ['"'] + tail, acc, line) == Unquoted(tail, acc + text, line)
  {
    assert (['"'] + text + ['"'] + tail)[1..] == text + ['"'] + tail;
    QuotedTextReads(text, tail, acc, line);
  }

  lemma {:induction false} BlanksAreEaten(blanks: string, tail: string)
    requires Blanks(blanks) && Head(tail) != ' ' && Head(tail) != '\t'
    ensures EatBlanks(blanks + tail) == tail
  {
    if blanks == [] {
      assert blanks + tail == tail;
    } else {
      assert (blanks + tail)[1..] == blanks[1..] + tail;
      BlanksAreEaten(blanks[1..], tail);
    }
  }

  lemma EscapeReads(c: char, tail: string, acc: string, line: nat)
    ensures Unquoted(['\\', c] + tail, acc, line) == Escaped([c] + tail, acc, line) && ([c] + tail)[1..] == tail
  {
    assert (['\\', c] + tail)[1..] == [c] + tail;
  }

  lemma ContinuedReads(cr: bool, blanks: string, tail: string, acc: string, line: nat)
    requires Blanks(blanks) && Head(tail) != ' ' && Head(tail) != '\t'
    ensures Unquoted(Written(Continued(cr, blanks)) + tail, acc, line) == Unquoted(tail, acc, line + 1)
  {
    BlanksAreEaten(blanks, tail);
    if cr { ReturnContinues(blanks, tail, acc, line); } else { FeedContinues(blanks, tail, acc, line); }
  }

  lemma ReturnContinues(blanks: string, tail: string, acc: string, line: nat)
    ensures Unquoted(['\\', '\r', '\n'] + blanks + tail, acc, line) == Unquoted(EatBlanks(blanks + tail), acc, line + 1)
  {
    var body := blanks + tail;
    var s := ['\\', '\r', '\n'] + blanks + tail;
    var t := ['\r', '\n'] + body;
    assert s[1..] == t && t[1..] == ['\n'] + body && t[2..] == body;
    assert Escaped(t, acc, line) == Unquoted(EatBlanks(body), acc, line + 1);
  }

  lemma FeedContinues(blanks: string, tail: string, acc: string, line: nat)
    ensures Unquoted(['\\', '\n'] + blanks + tail, acc, line) == Unquoted(EatBlanks(blanks + tail), acc, line + 1)
  {
    var body := blanks + tail;
    var s := ['\\', '\n'] + blanks + tail;
    var t := ['\n'] + body;
    assert s[1..] == t && t[1..] == body;
    assert Escaped(t, acc, line) == Unquoted(EatBlanks(body), acc, line + 1);
  }

  /** Each piece adds what it means to the token and counts the lines it continues. */
  lemma PieceReads(p: Piece, tail: string, acc: string, line: nat)
    requires Writable(p) && Follows(p, tail)
    ensures Unquoted(Written(p) + tail, acc, line) == Unquoted(tail, acc + Meant(p), line + Breaks(p))
  {
    assert acc + [] == acc;
    match p
    case Plain(c) => assert ([c] + tail)[1..] == tail;
    case InQuotes(text) => QuotesRead(text, tail, acc, line);
    case Continued(cr, blanks) => ContinuedReads(cr, blanks, tail, acc, line);
    case LoneReturn => EscapeReads('\r', tail, acc, line);
    case EscapedNewline => EscapeReads('n', tail, acc, line);
    case EscapedReturn => EscapeReads('r', tail, acc, line);
    case EscapedTab => EscapeReads('t', tail, acc, line);
    case EscapedSelf(c) => EscapeReads(c, tail, acc, line);
  }

  function WrittenToken(ps: seq<Piece>): string { if ps == [] then [] else Written(ps[0]) + WrittenToken(ps[1..]) }

  function MeantToken(ps: seq<Piece>): string { if ps == [] then [] else Meant(ps[0]) + MeantToken(ps[1..]) }

  function BreaksOf(ps: seq<Piece>): nat { if ps == [] then 0 else Breaks(ps[0]) + BreaksOf(ps[1..]) }

  predicate AllWritable(ps: seq<Piece>) { forall i :: 0 <= i < |ps| ==> Writable(ps[i]) }

  predicate EndsWell(ps: seq<Piece>, tail: string) { ps != [] ==> Follows(ps[|ps| - 1], tail) }

  lemma PieceStarts(ps: seq<Piece>, tail: string)
    requires ps != [] && AllWritable(ps)
    ensures var c := Head(WrittenToken(ps) + tail);
            c != NUL && c != ' ' && c != '\t' && c != '\r' && c != '\n' && (c == '#' ==> ps[0] == Plain('#'))
  {
    assert Writable(ps[0]) && Written(ps[0]) != [];
    assert (WrittenToken(ps) + tail)[0] == Written(ps[0])[0];
  }

  /** A reader that treats every piece as `PieceReads` says. */
  ghost predicate ReadsPieces(u: (string, string, nat) -> Step) {
    forall p, tail, acc, line: nat :: Writable(p) && Follows(p, tail) ==> u(Written(p) + tail, acc, line) == u(tail, acc + Meant(p), line + Breaks(p))
  }

  lemma {:induction false} TokenReadBy(u: (string, string, nat) -> Step, ps: seq<Piece>, tail: string, acc: string, line: nat)
    requires ReadsPieces(u) && AllWritable(ps) && EndsWell(ps, tail)
    ensures u(WrittenToken(ps) + tail, acc, line) == u(tail, acc + MeantToken(ps), line + BreaksOf(ps))
  {
    if ps == [] {
      assert WrittenToken(ps) + tail == tail && acc + MeantToken(ps) == acc;
    } else {
      NextFollows(ps, tail);
      assert Writable(ps[0]);
      assert u(Written(ps[0]) + (WrittenToken(ps[1..]) + tail), acc, line) == u(WrittenToken(ps[1..]) + tail, acc + Meant(ps[0]), line + Breaks(ps[0]));
      TokenReadBy(u, ps[1..], tail, acc + Meant(ps[0]), line + Breaks(ps[0]));
      Joins(acc, Meant(ps[0]), MeantToken(ps[1..]));
    }
  }

  lemma TokenReads(ps: seq<Piece>, tail: string, acc: string, line: nat)
    requires AllWritable(ps) && EndsWell(ps, tail)
    ensures Unquoted(WrittenToken(ps) + tail, acc, line) == Unquoted(tail, acc + MeantToken(ps), line + BreaksOf(ps))
  {
    var u := (s: string, a: string, n: nat) => Unquoted(s, a, n);
    forall p, t, a, n: nat | Writable(p) && Follows(p, t) ensures u(Written(p) + t, a, n) == u(t, a + Meant(p), n + Breaks(p)) {
      PieceReads(p, t, a, n);
    }
    TokenReadBy(u, ps, tail, acc, line);
  }

  lemma NextFollows(ps: seq<Piece>, tail: string)
    requires ps != [] && AllWritable(ps) && EndsWell(ps, tail)
    ensures Follows(ps[0], WrittenToken(ps[1..]) + tail)
    ensures WrittenToken(ps) + tail == Written(ps[0]) + (WrittenToken(ps[1..]) + tail)
  {
    Joins(Written(ps[0]), WrittenToken(ps[1..]), tail);
    if |ps| > 1 { PieceStarts(ps[1..], tail); } else { assert [] + tail == tail; }
  }

  // ------------------------------------------------------------------ lines

  /** A token and the blanks after it. */
  datatype Word = Word(pieces: seq<Piece>, gap: string)

  /** A line: blanks, words and a comment. */
  datatype Row = Row(lead: string, words: seq<Word>, comment: Option<string>)

  predicate Gap(s: string) { forall i :: 0 <= i < |s| ==> s[i] == ' ' || s[i] == '\t' || s[i] == '\r' }

  /** A word does not start like a comment, is kept apart from what follows, and its last piece does not run
      into that. */
  predicate Spaced(w: Word, last: bool) {
    && w.pieces != [] && AllWritable(w.pieces) && w.pieces[0] != Plain('#') && Gap(w.gap)
    && (w.gap == [] ==> last) && EndsWell(w.pieces, w.gap + ['\n'])
  }

  predicate LaidOut(r: Row) {
    Gap(r.lead) && AllSpaced(r.words, r.comment) && OneLine(r.comment)
  }

  predicate OneLine(comment: Option<string>) { comment.Some? ==> NUL !in comment.value && '\n' !in comment.value }

  function WrittenWords(ws: seq<Word>): string {
    if ws == [] then [] else WrittenToken(ws[0].pieces) + ws[0].gap + WrittenWords(ws[1..])
  }

  function RowEnd(comment: Option<string>): string {
    match comment case None => ['\n'] case Some(text) => ['#'] + text + ['\n']
  }

  function WrittenRow(r: Row): string { r.lead + WrittenWords(r.words) + RowEnd(r.comment) }

  function MeantWords(ws: seq<Word>): seq<string> {
    if ws == [] then [] else [MeantToken(ws[0].pieces)] + MeantWords(ws[1..])
  }

  function BreaksIn(ws: seq<Word>): nat { if ws == [] then 0 else BreaksOf(ws[0].pieces) + BreaksIn(ws[1..]) }

  lemma SameScan(s: string, t: string, args: seq<string>, line: nat)
    requires Scan(s, line) == Scan(t, line)
    ensures Lines(Cursor(s, false, line), args) == Lines(Cursor(t, false, line), args)
  {
    var a, b := Cursor(s, false, line), Cursor(t, false, line);
    assert Next(a) == Next(b);
    match Next(a).token
    case Eof =>
    case Text(_) =>
    case Newline =>
  }

  lemma {:induction false} GapIsSkipped(gap: string, tail: string, args: seq<string>, line: nat)
    requires Gap(gap)
    ensures Lines(Cursor(gap + tail, false, line), args) == Lines(Cursor(tail, false, line), args)
  {
    if gap == [] {
      assert gap + tail == tail;
    } else {
      assert (gap + tail)[1..] == gap[1..] + tail;
      SameScan(gap + tail, gap[1..] + tail, args, line);
      GapIsSkipped(gap[1..], tail, args, line);
    }
  }

  /** A word is read up to the blank or line break after it. */
  lemma WordScans(ps: seq<Piece>, after: string, line: nat)
    requires ps != [] && AllWritable(ps) && ps[0] != Plain('#') && EndsWell(ps, after)
    requires after != [] && (IsBlank(after[0]) || after[0] == '\n')
    ensures Next(Cursor(WrittenToken(ps) + after, false, line))
         == Step(Text(MeantToken(ps)), Cursor(after[1..], after[0] == '\n', line + BreaksOf(ps)))
  {
    PieceStarts(ps, after);
    ScanIsUnquoted(WrittenToken(ps) + after, line);
    TokenIsRead(ps, after, line);
  }

  lemma TokenIsRead(ps: seq<Piece>, after: string, line: nat)
    requires AllWritable(ps) && EndsWell(ps, after) && after != [] && (IsBlank(after[0]) || after[0] == '\n')
    ensures Unquoted(WrittenToken(ps) + after, [], line) == Step(Text(MeantToken(ps)), Cursor(after[1..], after[0] == '\n', line + BreaksOf(ps)))
  {
    assert [] + MeantToken(ps) == MeantToken(ps);
    TokenReads(ps, after, [], line);
    TokenEnds(after, MeantToken(ps), line + BreaksOf(ps));
  }

  lemma TokenEnds(after: string, acc: string, line: nat)
    requires after != [] && (IsBlank(after[0]) || after[0] == '\n')
    ensures Unquoted(after, acc, line) == Step(Text(acc), Cursor(after[1..], after[0] == '\n', line))
  {
  }

  lemma ScanIsUnquoted(s: string, line: nat)
    requires var c := Head(s); c != NUL && c != ' ' && c != '\t' && c != '\r' && c != '\n' && c != '#'
    ensures Next(Cursor(s, false, line)) == Unquoted(s, [], line)
  {
  }

  lemma SpacedEndsWell(w: Word, last: bool, tail: string)
    requires Spaced(w, last) && (w.gap == [] ==> Head(tail) == '\n')
    ensures EndsWell(w.pieces, w.gap + tail)
  {
    assert Head(w.gap + ['\n']) == Head(w.gap + tail);
  }

  /** A word that is followed by a blank. */
  lemma WordReads(w: Word, last: bool, tail: string, args: seq<string>, line: nat)
    requires Spaced(w, last) && w.gap != []
    ensures Lines(Cursor(WrittenToken(w.pieces) + (w.gap + tail), false, line), args)
         == Lines(Cursor(tail, false, line + BreaksOf(w.pieces)), args + [MeantToken(w.pieces)])
  {
    SpacedEndsWell(w, last, tail);
    var after, n := w.gap + tail, line + BreaksOf(w.pieces);
    WordScans(w.pieces, after, line);
    assert after[1..] == w.gap[1..] + tail;
    UnfoldText(Cursor(WrittenToken(w.pieces) + after, false, line), args, MeantToken(w.pieces), Cursor(after[1..], false, n));
    GapIsSkipped(w.gap[1..], tail, args + [MeantToken(w.pieces)], n);
  }

  /** A word that ends its line. */
  lemma LastWordReads(w: Word, rest: string, args: seq<string>, line: nat)
    requires Spaced(w, true) && w.gap == []
    ensures Lines(Cursor(WrittenToken(w.pieces) + (['\n'] + rest), false, line), args)
         == Ended(args + [MeantToken(w.pieces)], rest, line + BreaksOf(w.pieces) + 1)
  {
    var after := ['\n'] + rest;
    assert w.gap + after == after && after[1..] == rest;
    SpacedEndsWell(w, true, after);
    WordScans(w.pieces, after, line);
    var owed := Cursor(rest, true, line + BreaksOf(w.pieces));
    UnfoldText(Cursor(WrittenToken(w.pieces) + after, false, line), args, MeantToken(w.pieces), owed);
    UnfoldOwedNewline(owed, args + [MeantToken(w.pieces)]);
  }

  /** The lines from here on, with some arguments read, once the line ends. */
  function Ended(args: seq<string>, rest: string, n: nat): seq<Line> {
    (if args == [] then [] else [Line(args, n)]) + Lines(Cursor(rest, false, n), [])
  }

  lemma {:induction false} CommentIsSkipped(text: string, rest: string)
    requires NUL !in text && '\n' !in text
    ensures ToLineEnd(text + ['\n'] + rest) == ['\n'] + rest
  {
    var s := text + ['\n'] + rest;
    if text == [] {
      assert s == ['\n'] + rest;
    } else {
      assert s[1..] == text[1..] + ['\n'] + rest;
      CommentIsSkipped(text[1..], rest);
    }
  }

  /** A line break, with a comment before it or without. */
  lemma RowEndReads(comment: Option<string>, rest: string, args: seq<string>, line: nat)
    requires OneLine(comment)
    ensures Lines(Cursor(RowEnd(comment) + rest, false, line), args) == Ended(args, rest, line + 1)
  {
    var s := RowEnd(comment) + rest;
    match comment
    case Some(text) =>
      assert s == (['#'] + text) + ['\n'] + rest;
      CommentIsSkipped(['#'] + text, rest);
      assert (['\n'] + rest)[1..] == rest;
    case None => assert s[1..] == rest;
    assert Next(Cursor(s, false, line)) == Step(Newline, Cursor(rest, false, line));
  }

  lemma WordsSplit(ws: seq<Word>, tail: string)
    requires ws != []
    ensures WrittenWords(ws) + tail == WrittenToken(ws[0].pieces) + (ws[0].gap + (WrittenWords(ws[1..]) + tail))
  {
    Joins(WrittenToken(ws[0].pieces) + ws[0].gap, WrittenWords(ws[1..]), tail);
    Joins(WrittenToken(ws[0].pieces), ws[0].gap, WrittenWords(ws[1..]) + tail);
  }

  predicate AllSpaced(ws: seq<Word>, comment: Option<string>) {
    forall i :: 0 <= i < |ws| ==> Spaced(ws[i], i == |ws| - 1 && comment.None?)
  }

  lemma AllSpacedTail(ws: seq<Word>, comment: Option<string>)
    requires ws != [] && AllSpaced(ws, comment)
    ensures AllSpaced(ws[1..], comment)
  {
    forall i | 0 <= i < |ws[1..]| ensures Spaced(ws[1..][i], i == |ws[1..]| - 1 && comment.None?) {
      assert Spaced(ws[i + 1], i + 1 == |ws| - 1 && comment.None?);
    }
  }

  type Reader = (string, seq<string>, nat) -> seq<Line>

  /** A reader of lines, word by word and up to the end of the row. */
  ghost predicate SkipsWords(u: Reader) {
    forall w, last, tail, args, line: nat :: Spaced(w, last) && w.gap != [] ==>
      u(WrittenToken(w.pieces) + (w.gap + tail), args, line) == u(tail, args + [MeantToken(w.pieces)], line + BreaksOf(w.pieces))
  }

  ghost predicate EndsRows(u: Reader, e: (seq<string>, nat) -> seq<Line>, end: string) {
    forall args, line: nat :: u(end, args, line) == e(args, line + 1)
  }

  ghost predicate EndsWords(u: Reader, e: (seq<string>, nat) -> seq<Line>, end: string) {
    forall w, args, line: nat :: Spaced(w, true) && w.gap == [] ==>
      u(WrittenToken(w.pieces) + end, args, line) == e(args + [MeantToken(w.pieces)], line + BreaksOf(w.pieces) + 1)
  }

  lemma {:induction false} WordsReadBy(
    u: Reader, e: (seq<string>, nat) -> seq<Line>, ws: seq<Word>, comment: Option<string>, end: string, args: seq<string>, line: nat)
    requires SkipsWords(u) && EndsRows(u, e, end) && (comment.None? ==> EndsWords(u, e, end)) && AllSpaced(ws, comment)
    ensures u(WrittenWords(ws) + end, args, line) == e(args + MeantWords(ws), line + BreaksIn(ws) + 1)
    decreases |ws|
  {
    if ws == [] {
      assert WrittenWords(ws) + end == end && args + MeantWords(ws) == args;
    } else {
      var w := ws[0];
      var last := FirstIsSpaced(ws, comment);
      WordsSplit(ws, end);
      Joins(args, [MeantToken(w.pieces)], MeantWords(ws[1..]));
      if w.gap == [] {
        OneWord(ws, end);
      } else {
        AllSpacedTail(ws, comment);
        SkipFirst(u, w, last, WrittenWords(ws[1..]) + end, args, line);
        WordsReadBy(u, e, ws[1..], comment, end, args + [MeantToken(w.pieces)], line + BreaksOf(w.pieces));
      }
    }
  }

  lemma SkipFirst(u: Reader, w: Word, last: bool, tail: string, args: seq<string>, line: nat)
    requires SkipsWords(u) && Spaced(w, last) && w.gap != []
    ensures u(WrittenToken(w.pieces) + (w.gap + tail), args, line) == u(tail, args + [MeantToken(w.pieces)], line + BreaksOf(w.pieces))
  {
  }

  lemma OneWord(ws: seq<Word>, end: string)
    requires |ws| == 1 && ws[0].gap == []
    ensures MeantWords(ws) == [MeantToken(ws[0].pieces)] && BreaksIn(ws) == BreaksOf(ws[0].pieces)
    ensures WrittenWords(ws) + end == WrittenToken(ws[0].pieces) + end
  {
    assert ws[1..] == [];
  }

  lemma FirstIsSpaced(ws: seq<Word>, comment: Option<string>) returns (last: bool)
    requires AllSpaced(ws, comment) && ws != []
    ensures Spaced(ws[0], last) && (ws[0].gap == [] ==> |ws| == 1 && comment.None? && Spaced(ws[0], true))
  {
    last := 0 == |ws| - 1 && comment.None?;
  }

  ghost predicate ReadsLines(u: Reader) { forall s, a, n: nat :: u(s, a, n) == Lines(Cursor(s, false, n), a) }

  lemma SkipsWord(u: Reader, w: Word, last: bool, tail: string, a: seq<string>, n: nat)
    requires ReadsLines(u) && Spaced(w, last) && w.gap != []
    ensures u(WrittenToken(w.pieces) + (w.gap + tail), a, n) == u(tail, a + [MeantToken(w.pieces)], n + BreaksOf(w.pieces))
  {
    WordReads(w, last, tail, a, n);
  }

  ghost predicate Ends(e: (seq<string>, nat) -> seq<Line>, rest: string) { forall a, n: nat :: e(a, n) == Ended(a, rest, n) }

  lemma EndsWord(u: Reader, e: (seq<string>, nat) -> seq<Line>, w: Word, rest: string, a: seq<string>, n: nat)
    requires ReadsLines(u) && Ends(e, rest) && Spaced(w, true) && w.gap == []
    ensures u(WrittenToken(w.pieces) + (['\n'] + rest), a, n) == e(a + [MeantToken(w.pieces)], n + BreaksOf(w.pieces) + 1)
  {
    LastWordReads(w, rest, a, n);
  }

  lemma LinesSkipWords(u: Reader)
    requires ReadsLines(u)
    ensures SkipsWords(u)
  {
    forall w, last, tail, a, n: nat | Spaced(w, last) && w.gap != []
      ensures u(WrittenToken(w.pieces) + (w.gap + tail), a, n) == u(tail, a + [MeantToken(w.pieces)], n + BreaksOf(w.pieces))
    {
      SkipsWord(u, w, last, tail, a, n);
    }
  }

  lemma LinesEndRows(u: Reader, e: (seq<string>, nat) -> seq<Line>, comment: Option<string>, rest: string)
    requires OneLine(comment) && ReadsLines(u)
    requires Ends(e, rest)
    ensures EndsRows(u, e, RowEnd(comment) + rest)
  {
    forall a, n: nat ensures u(RowEnd(comment) + rest, a, n) == e(a, n + 1) { RowEndReads(comment, rest, a, n); }
  }

  lemma LinesEndWords(u: Reader, e: (seq<string>, nat) -> seq<Line>, rest: string)
    requires ReadsLines(u) && Ends(e, rest)
    ensures EndsWords(u, e, ['\n'] + rest)
  {
    forall w, a, n: nat | Spaced(w, true) && w.gap == []
      ensures u(WrittenToken(w.pieces) + (['\n'] + rest), a, n) == e(a + [MeantToken(w.pieces)], n + BreaksOf(w.pieces) + 1)
    {
      EndsWord(u, e, w, rest, a, n);
    }
  }

  lemma WordsRead(ws: seq<Word>, comment: Option<string>, rest: string, args: seq<string>, line: nat)
    requires AllSpaced(ws, comment) && OneLine(comment)
    ensures Lines(Cursor(WrittenWords(ws) + (RowEnd(comment) + rest), false, line), args)
         == Ended(args + MeantWords(ws), rest, line + BreaksIn(ws) + 1)
  {
    var u := (s: string, a: seq<string>, n: nat) => Lines(Cursor(s, false, n), a);
    var e := (a: seq<string>, n: nat) => Ended(a, rest, n);
    LinesSkipWords(u);
    LinesEndRows(u, e, comment, rest);
    if comment.None? { LinesEndWords(u, e, rest); }
    WordsReadBy(u, e, ws, comment, RowEnd(comment) + rest, args, line);
  }

  lemma RowSplits(r: Row, rest: string)
    ensures WrittenRow(r) + rest == r.lead + (WrittenWords(r.words) + (RowEnd(r.comment) + rest))
  {
    Joins(r.lead + WrittenWords(r.words), RowEnd(r.comment), rest);
    Joins(r.lead, WrittenWords(r.words), RowEnd(r.comment) + rest);
  }

  /** A line is read as its words, numbered by where it ends, or as nothing if it has none. */
  lemma RowReads(r: Row, rest: string, line: nat)
    requires LaidOut(r)
    ensures Lines(Cursor(WrittenRow(r) + rest, false, line), []) == Ended(MeantWords(r.words), rest, line + BreaksIn(r.words) + 1)
  {
    var words := WrittenWords(r.words) + (RowEnd(r.comment) + rest);
    RowSplits(r, rest);
    GapIsSkipped(r.lead, words, [], line);
    WordsRead(r.words, r.comment, rest, [], line);
    assert [] + MeantWords(r.words) == MeantWords(r.words);
  }

  // ------------------------------------------------------------------ files

  predicate AllLaidOut(rows: seq<Row>) { forall i :: 0 <= i < |rows| ==> LaidOut(rows[i]) }

  function WrittenFile(rows: seq<Row>): string { if rows == [] then [] else WrittenRow(rows[0]) + WrittenFile(rows[1..]) }

  /** The lines with words, each numbered by the line of the text it ends on. */
  function MeantLines(rows: seq<Row>, from: nat): seq<Line> {
    if rows == [] then []
    else
      var n := from + BreaksIn(rows[0].words) + 1;
      var here := if rows[0].words == [] then [] else [Line(MeantWords(rows[0].words), n)];
      here + MeantLines(rows[1..], n)
  }

  lemma {:induction false} RowsRead(rows: seq<Row>, line: nat)
    requires AllLaidOut(rows)
    ensures Lines(Cursor(WrittenFile(rows) + [NUL], false, line), []) == MeantLines(rows, line)
  {
    if rows == [] {
      assert [] + [NUL] == [NUL];
      assert Next(Cursor([NUL], false, line)).token == Eof;
    } else {
      var rest := WrittenFile(rows[1..]) + [NUL];
      assert WrittenFile(rows) + [NUL] == WrittenRow(rows[0]) + rest;
      RowReads(rows[0], rest, line);
      RowsRead(rows[1..], line + BreaksIn(rows[0].words) + 1);
      assert rows[0].words == [] <==> MeantWords(rows[0].words) == [];
    }
  }

  /** However a file is written, what is read is what was meant; the last line need not be ended. */
  lemma EverySpellingReadsBack(rows: seq<Row>)
    requires AllLaidOut(rows)
    ensures FileLines(WrittenFile(rows)) == MeantLines(rows, 0)
    ensures rows != [] ==> WrittenFile(rows) != [] && FileLines(WrittenFile(rows)[..|WrittenFile(rows)| - 1]) == MeantLines(rows, 0)
  {
    FileReads(rows);
    if rows != [] { UnendedFileReads(rows); }
  }

  lemma FileReads(rows: seq<Row>)
    requires AllLaidOut(rows)
    ensures FileLines(WrittenFile(rows)) == MeantLines(rows, 0)
  {
    var empty := Row([], [], None);
    EmptyAppend(rows, empty);
    MeantAppend(rows, empty, 0);
    RowsRead(rows + [empty], 0);
    FileIs(WrittenFile(rows), WrittenFile(rows + [empty]) + [NUL]);
  }

  lemma FileIs(contents: string, text: string)
    requires contents + ['\n', NUL] == text
    ensures FileLines(contents) == Lines(Cursor(text, false, 0), [])
  {
  }

  lemma EmptyAppend(rows: seq<Row>, empty: Row)
    requires empty == Row([], [], None)
    ensures LaidOut(empty) && WrittenFile(rows) + ['\n', NUL] == WrittenFile(rows + [empty]) + [NUL]
  {
    assert WrittenRow(empty) == ['\n'];
    WrittenAppend(rows, empty);
    Joins(WrittenFile(rows), ['\n'], [NUL]);
  }

  lemma UnendedFileReads(rows: seq<Row>)
    requires AllLaidOut(rows) && rows != []
    ensures var s := WrittenFile(rows); s != [] && FileLines(s[..|s| - 1]) == MeantLines(rows, 0)
  {
    RowsRead(rows, 0);
    EndsInNewline(rows);
    var s := WrittenFile(rows);
    ReEnded(s);
    FileIs(s[..|s| - 1], s + [NUL]);
  }

  lemma ReEnded(s: string)
    requires s != [] && s[|s| - 1] == '\n'
    ensures s[..|s| - 1] + ['\n', NUL] == s + [NUL]
  {
  }

  lemma {:induction false} WrittenAppend(rows: seq<Row>, r: Row)
    ensures WrittenFile(rows + [r]) == WrittenFile(rows) + WrittenRow(r)
  {
    if rows == [] {
      assert [] + [r] == [r];
    } else {
      assert (rows + [r])[1..] == rows[1..] + [r];
      WrittenAppend(rows[1..], r);
    }
  }

  lemma {:induction false} MeantAppend(rows: seq<Row>, r: Row, from: nat)
    requires r.words == []
    ensures MeantLines(rows + [r], from) == MeantLines(rows, from)
  {
    if rows == [] {
      assert [] + [r] == [r] && [r][1..] == [];
    } else {
      assert (rows + [r])[1..] == rows[1..] + [r];
      MeantAppend(rows[1..], r, from + BreaksIn(rows[0].words) + 1);
    }
  }

  lemma {:induction false} EndsInNewline(rows: seq<Row>)
    requires rows != []
    ensures WrittenFile(rows) != [] && WrittenFile(rows)[|WrittenFile(rows)| - 1] == '\n'
  {
    if |rows| > 1 { EndsInNewline(rows[1..]); }
  }

  // ------------------------------------------------------------------ without quotes

  /** Each character of a token that needs it with a backslash before it. */
  function Escapes(t: string): seq<Piece> {
    if t == [] then []
    else [if t[0] == '\n' then EscapedNewline
          else if t[0] == '\r' then EscapedReturn
          else if t[0] == '\t' then EscapedTab
          else if t[0] == ' ' || t[0] == '"' || t[0] == '\\' || t[0] == '#' then EscapedSelf(t[0])
          else Plain(t[0])] + Escapes(t[1..])
  }

  lemma {:induction false} EscapesMean(t: string)
    requires NUL !in t
    ensures MeantToken(Escapes(t)) == t && BreaksOf(Escapes(t)) == 0
  {
    if t != [] {
      EscapesMean(t[1..]);
      assert [t[0]] + t[1..] == t;
    }
  }

  lemma {:induction false} EscapesAreWritable(t: string)
    requires NUL !in t
    ensures |Escapes(t)| == |t| && AllWritable(Escapes(t))
    ensures forall i :: 0 <= i < |t| ==> Escapes(t)[i] != Plain('#') && !Escapes(t)[i].LoneReturn? && !Escapes(t)[i].Continued?
  {
    if t != [] { EscapesAreWritable(t[1..]); }
  }

  function EscapedWord(t: string): Word { Word(Escapes(t), [' ']) }

  function EscapedWords(args: seq<string>): seq<Word> {
    if args == [] then [] else [EscapedWord(args[0])] + EscapedWords(args[1..])
  }

  function EscapedRows(lines: seq<seq<string>>): seq<Row> {
    if lines == [] then [] else [EscapedRow(lines[0])] + EscapedRows(lines[1..])
  }

  function EscapedRow(args: seq<string>): Row { Row([], EscapedWords(args), None) }

  lemma EscapedWordIsSpaced(t: string, last: bool)
    requires NUL !in t && t != []
    ensures Spaced(EscapedWord(t), last)
  {
    EscapesAreWritable(t);
  }

  lemma {:induction false} EscapedWordsMean(args: seq<string>)
    requires NulFree(args) && [] !in args
    ensures MeantWords(EscapedWords(args)) == args && BreaksIn(EscapedWords(args)) == 0
  {
    if args != [] {
      EscapesMean(args[0]);
      EscapedWordsMean(args[1..]);
      assert [args[0]] + args[1..] == args;
    }
  }

  lemma {:induction false} EscapedWordsAre(args: seq<string>)
    ensures |EscapedWords(args)| == |args| && forall i :: 0 <= i < |args| ==> EscapedWords(args)[i] == EscapedWord(args[i])
  {
    if args != [] { EscapedWordsAre(args[1..]); }
  }

  lemma EscapedRowIsLaidOut(args: seq<string>)
    requires NulFree(args) && [] !in args
    ensures LaidOut(EscapedRow(args))
  {
    EscapedWordsAre(args);
    forall i | 0 <= i < |args| ensures Spaced(EscapedWords(args)[i], i == |args| - 1) {
      EscapedWordIsSpaced(args[i], i == |args| - 1);
    }
  }

  lemma EscapedRowMeans(args: seq<string>)
    requires args != [] && NulFree(args) && [] !in args
    ensures var r := EscapedRow(args); r.words != [] && MeantWords(r.words) == args && BreaksIn(r.words) == 0
  {
    EscapedWordsMean(args);
    EscapedWordsAre(args);
  }

  lemma {:induction false} EscapedRowsMean(lines: seq<seq<string>>, from: nat)
    requires Printable(lines) && forall i :: 0 <= i < |lines| ==> [] !in lines[i]
    ensures MeantLines(EscapedRows(lines), from) == Numbered(lines, from)
  {
    if lines != [] {
      EscapedRowMeans(lines[0]);
      EscapedRowsMean(lines[1..], from + 1);
      UnfoldRows(EscapedRow(lines[0]), EscapedRows(lines[1..]), from);
    }
  }

  lemma UnfoldRows(row: Row, rows: seq<Row>, from: nat)
    requires row.words != [] && BreaksIn(row.words) == 0
    ensures MeantLines([row] + rows, from) == [Line(MeantWords(row.words), from + 1)] + MeantLines(rows, from + 1)
  {
    assert ([row] + rows)[1..] == rows;
  }

  lemma {:induction false} EscapedRowsAreLaidOut(lines: seq<seq<string>>)
    requires Printable(lines) && forall i :: 0 <= i < |lines| ==> [] !in lines[i]
    ensures AllLaidOut(EscapedRows(lines))
  {
    if lines != [] {
      EscapedRowIsLaidOut(lines[0]);
      EscapedRowsAreLaidOut(lines[1..]);
    }
  }

  /** The second round trip: without any quotes, every character that means something else is escaped. */
  lemma EscapedRoundTrip(lines: seq<seq<string>>)
    requires Printable(lines) && forall i :: 0 <= i < |lines| ==> [] !in lines[i]
    ensures FileLines(WrittenFile(EscapedRows(lines))) == Numbered(lines, 0)
  {
    EscapedRowsMean(lines, 0);
    EscapedRowsAreLaidOut(lines);
    EverySpellingReadsBack(EscapedRows(lines));
  }

  // ------------------------------------------------------------------ a quote that is left open

  lemma {:induction false} OpenQuoteIsEof(text: string, junk: string, acc: string, line: nat)
    requires NUL !in text && '"' !in text
    ensures Quoted(text + [NUL] + junk, acc, line).token == Eof
  {
    var s := text + [NUL] + junk;
    if text != [] {
      assert s[1..] == text[1..] + [NUL] + junk;
      OpenQuoteIsEof(text[1..], junk, acc + [text[0]], line);
    }
  }

  /** A quote that is never closed swallows the rest of the file, and the line it is on. */
  lemma OpenQuoteDropsLine(ps: seq<Piece>, text: string, args: seq<string>, line: nat)
    requires AllWritable(ps) && (ps != [] ==> ps[0] != Plain('#')) && NUL !in text && '"' !in text
    ensures Lines(Cursor(WrittenToken(ps) + (['"'] + text + [NUL]), false, line), args) == []
  {
    var tail := ['"'] + text + [NUL];
    OpenTokenIsEof(ps, text, line);
    if ps == [] { assert WrittenToken(ps) + tail == tail; } else { PieceStarts(ps, tail); }
    ScanIsUnquoted(WrittenToken(ps) + tail, line);
  }

  lemma OpenTokenIsEof(ps: seq<Piece>, text: string, line: nat)
    requires AllWritable(ps) && NUL !in text && '"' !in text
    ensures Unquoted(WrittenToken(ps) + (['"'] + text + [NUL]), [], line).token == Eof
  {
    TokenReads(ps, ['"'] + text + [NUL], [], line);
    OpenTailIsEof(text, [] + MeantToken(ps), line + BreaksOf(ps));
  }

  lemma OpenTailIsEof(text: string, acc: string, line: nat)
    requires NUL !in text && '"' !in text
    ensures Unquoted(['"'] + text + [NUL], acc, line).token == Eof
  {
    assert (['"'] + text + [NUL])[1..] == text + [NUL] + [];
    OpenQuoteIsEof(text, [], acc, line);
  }
}

/** The rc parser: how the lines of a file are dealt out to section parsers, and how imports,
    collected by one shared import parser, drive the parser recursively. */
module RcParser {
  import opened Wrappers
  import opened Tokenizer
  import opened TokenLines

  /** What a path leads to: nothing that can be read, a file, a directory with these regular files, or a
      directory that cannot be opened. */
  datatype Node = Missing | File(contents: string) | Dir(entries: seq<string>) | Locked

  /** What the parser is created with and what it reads: the registered section names and line
      prefixes, the files, the import gate of the boot policy, property expansion, and the verdicts
      that section parsers other than the import parser give on the calls they receive. */
  datatype Config = Config(
    sections: set<string>,
    prefixes: seq<string>,
    fs: string -> Node,
    allowed: string -> bool,
    expand: string -> Option<string>,
    verdict: nat -> bool)

  /** A call that reaches a section parser or a line callback. */
  datatype Call =
    | ParseSection(name: string, args: seq<string>, number: nat, ok: bool)
    | ParseLine(name: string, args: seq<string>, number: nat, ok: bool)
    | EndSection(name: string, ok: bool)
    | Callback(args: seq<string>, ok: bool)
    | EndFile

  /** The parser between two lines: the section open, whether the last section start was bad, the
      calls made, the errors counted, the imports not yet followed and the files parsed. */
  datatype State = State(
    open: Option<string>,
    bad: bool,
    calls: seq<Call>,
    errors: nat,
    imports: seq<string>,
    parsed: seq<string>)

  const IMPORT: string := "import"

  predicate StartsWithAny(s: string, prefixes: seq<string>) {
    exists i :: 0 <= i < |prefixes| && prefixes[i] <= s
  }

  /** The path an import line adds to the import list, if it adds one. */
  function ImportOf(cfg: Config, args: seq<string>): Option<string> {
    if |args| != 2 then None
    else match cfg.expand(args[1])
      case None => None
      case Some(path) => if cfg.allowed(path) then Some(path) else None
  }

  function ImportOk(cfg: Config, args: seq<string>): bool {
    |args| == 2 && cfg.expand(args[1]).Some?
  }

  function Count(ok: bool): nat { if ok then 0 else 1 }

  function Close(cfg: Config, st: State): State {
    if st.open.None? then st.(bad := false)
    else
      var ok := st.open.value == IMPORT || cfg.verdict(|st.calls|);
      st.(open := None, bad := false, calls := st.calls + [EndSection(st.open.value, ok)], errors := st.errors + Count(ok))
  }

  function Open(cfg: Config, st: State, line: Line): State
    requires line.args != []
  {
    var name := line.args[0];
    var ok := if name == IMPORT then ImportOk(cfg, line.args) else cfg.verdict(|st.calls|);
    var path := if name == IMPORT then ImportOf(cfg, line.args) else None;
    st.(open := if ok then Some(name) else None, bad := !ok,
        calls := st.calls + [ParseSection(name, line.args, line.number, ok)],
        errors := st.errors + Count(ok),
        imports := if path.Some? then st.imports + [path.value] else st.imports)
  }

  function OnLine(cfg: Config, st: State, line: Line): State
    requires line.args != []
  {
    if StartsWithAny(line.args[0], cfg.prefixes) then
      var c := Close(cfg, st);
      var ok := cfg.verdict(|c.calls|);
      c.(calls := c.calls + [Callback(line.args, ok)], errors := c.errors + Count(ok))
    else if line.args[0] in cfg.sections then
      Open(cfg, Close(cfg, st), line)
    else if st.open.Some? then
      var ok := st.open.value != IMPORT && cfg.verdict(|st.calls|);
      st.(calls := st.calls + [ParseLine(st.open.value, line.args, line.number, ok)], errors := st.errors + Count(ok))
    else
      st.(errors := st.errors + Count(st.bad))
  }

  predicate NonEmpty(lines: seq<Line>) { forall i :: 0 <= i < |lines| ==> lines[i].args != [] }

  function OnLines(cfg: Config, st: State, lines: seq<Line>): State
    requires NonEmpty(lines)
  {
    if lines == [] then st else OnLine(cfg, OnLines(cfg, st, lines[..|lines| - 1]), lines[|lines| - 1])
  }

  // ------------------------------------------------------------------ the import graph

  /** The import that one line makes, if it is one. */
  function ImportAt(cfg: Config, line: Line): seq<string>
    requires line.args != []
  {
    if line.args[0] != IMPORT || IMPORT !in cfg.sections || StartsWithAny(line.args[0], cfg.prefixes) then []
    else match ImportOf(cfg, line.args) case None => [] case Some(path) => [path]
  }

  /** The imports of a file, read off its lines. */
  function ImportsOf(cfg: Config, lines: seq<Line>): seq<string>
    requires NonEmpty(lines)
  {
    if lines == [] then [] else ImportsOf(cfg, lines[..|lines| - 1]) + ImportAt(cfg, lines[|lines| - 1])
  }

  lemma {:induction false} FileLinesNonEmpty(c: Cursor, args: seq<string>)
    ensures NonEmpty(Lines(c, args))
    decreases Measure(c)
  {
    NextProgress(c);
    var r := Next(c);
    match r.token
    case Eof =>
    case Text(t) => FileLinesNonEmpty(r.next, args + [t]);
    case Newline => FileLinesNonEmpty(AtNewline(r.next), []);
  }

  function Contents(contents: string): (lines: seq<Line>)
    ensures NonEmpty(lines)
  {
    FileLinesNonEmpty(Cursor(contents + ['\n', NUL], false, 0), []);
    FileLines(contents)
  }

  /** The import graph has no cycle: `rank` falls along every import and into every directory. */
  ghost predicate Acyclic(cfg: Config, rank: string -> nat) {
    forall path :: match cfg.fs(path)
      case Missing => true
      case Locked => true
      case File(contents) => Below(ImportsOf(cfg, Contents(contents)), rank, rank(path))
      case Dir(entries) => Below(entries, rank, rank(path))
  }

  ghost predicate Below(paths: seq<string>, rank: string -> nat, bound: nat) {
    forall i :: 0 <= i < |paths| ==> rank(paths[i]) < bound
  }

  /** The documented order: a file, then recursively each of its imports; a directory is its files in
      alphabetical order, each followed by its own imports. */
  ghost function Import(cfg: Config, rank: string -> nat, path: string): seq<string>
    requires Acyclic(cfg, rank)
    decreases rank(path), 2, 0
  {
    match cfg.fs(path)
    case Missing => []
    case Locked => []
    case File(_) => ImportFile(cfg, rank, path)
    case Dir(entries) =>
      if !cfg.allowed(path) then []
      else
        SortedIsPermutation(entries);
        BelowSorted(entries, rank, rank(path));
        ImportFiles(cfg, rank, Sorted(entries), rank(path))
  }

  ghost function ImportFile(cfg: Config, rank: string -> nat, file: string): seq<string>
    requires Acyclic(cfg, rank)
    decreases rank(file), 1, 0
  {
    if !cfg.allowed(file) || !cfg.fs(file).File? then []
    else [file] + ImportEach(cfg, rank, ImportsOf(cfg, Contents(cfg.fs(file).contents)), rank(file))
  }

  ghost function ImportEach(cfg: Config, rank: string -> nat, paths: seq<string>, bound: nat): seq<string>
    requires Acyclic(cfg, rank) && Below(paths, rank, bound)
    decreases bound, 0, |paths|
  {
    if paths == [] then [] else Import(cfg, rank, paths[0]) + ImportEach(cfg, rank, paths[1..], bound)
  }

  ghost function ImportFiles(cfg: Config, rank: string -> nat, files: seq<string>, bound: nat): seq<string>
    requires Acyclic(cfg, rank) && Below(files, rank, bound)
    decreases bound, 0, |files|
  {
    if files == [] then [] else ImportFile(cfg, rank, files[0]) + ImportFiles(cfg, rank, files[1..], bound)
  }

  // ------------------------------------------------------------------ alphabetical order

  predicate AtMost(a: string, b: string) {
    a == [] || (b != [] && (a[0] < b[0] || (a[0] == b[0] && AtMost(a[1..], b[1..]))))
  }

  function Insert(x: string, s: seq<string>): seq<string> {
    if s == [] || AtMost(x, s[0]) then [x] + s else [s[0]] + Insert(x, s[1..])
  }

  function Sorted(s: seq<string>): seq<string> {
    if s == [] then [] else Insert(s[0], Sorted(s[1..]))
  }

  ghost predicate Ordered(s: seq<string>) {
    forall i, j :: 0 <= i < j < |s| ==> AtMost(s[i], s[j])
  }

  lemma {:induction false} AtMostTotal(a: string, b: string)
    ensures AtMost(a, b) || AtMost(b, a)
    ensures AtMost(a, b) && AtMost(b, a) ==> a == b
  {
    if a != [] && b != [] {
      AtMostTotal(a[1..], b[1..]);
      assert a == [a[0]] + a[1..] && b == [b[0]] + b[1..];
    }
  }

  lemma {:induction false} AtMostTransitive(a: string, b: string, c: string)
    requires AtMost(a, b) && AtMost(b, c)
    ensures AtMost(a, c)
  {
    if a != [] && a[0] == b[0] == c[0] { AtMostTransitive(a[1..], b[1..], c[1..]); }
  }

  lemma {:induction false} InsertOrdered(x: string, s: seq<string>)
    requires Ordered(s)
    ensures Ordered(Insert(x, s)) && multiset(Insert(x, s)) == multiset([x] + s)
  {
    if s == [] {
    } else if AtMost(x, s[0]) {
      forall i | 0 <= i < |s| ensures AtMost(x, s[i]) {
        if i > 0 { AtMostTransitive(x, s[0], s[i]); }
      }
    } else {
      var r := Insert(x, s[1..]);
      InsertOrdered(x, s[1..]);
      AtMostTotal(x, s[0]);
      assert s == [s[0]] + s[1..];
      forall i | 0 <= i < |r| ensures AtMost(s[0], r[i]) {
        assert r[i] in multiset(r);
        if r[i] != x { assert r[i] in s[1..]; }
      }
    }
  }

  lemma {:induction false} SortedIsPermutation(s: seq<string>)
    ensures Ordered(Sorted(s)) && multiset(Sorted(s)) == multiset(s)
  {
    if s != [] {
      SortedIsPermutation(s[1..]);
      InsertOrdered(s[0], Sorted(s[1..]));
      assert s == [s[0]] + s[1..];
    }
  }

  lemma HeadsAgree(a: seq<string>, b: seq<string>)
    requires Ordered(a) && Ordered(b) && multiset(a) == multiset(b) && a != [] && b != []
    ensures a[0] == b[0]
  {
    assert a[0] in multiset(b) && b[0] in multiset(a);
    var i :| 0 <= i < |b| && b[i] == a[0];
    var j :| 0 <= j < |a| && a[j] == b[0];
    AtMostTotal(a[0], b[0]);
  }

  lemma TailsAgree(a: seq<string>, b: seq<string>)
    requires multiset(a) == multiset(b) && a != [] && b != [] && a[0] == b[0]
    ensures multiset(a[1..]) == multiset(b[1..])
  {
    assert a == [a[0]] + a[1..] && b == [b[0]] + b[1..];
    assert multiset(a[1..]) == multiset(a) - multiset{a[0]};
  }

  lemma {:induction false} OrderedUnique(a: seq<string>, b: seq<string>)
    requires Ordered(a) && Ordered(b) && multiset(a) == multiset(b)
    ensures a == b
  {
    assert |multiset(a)| == |a| && |multiset(b)| == |b|;
    if a != [] {
      HeadsAgree(a, b);
      TailsAgree(a, b);
      OrderedUnique(a[1..], b[1..]);
    }
  }

  /** Files are loaded in one order, whatever order the directory lists them in. */
  lemma SortIgnoresDirectoryOrder(a: seq<string>, b: seq<string>)
    requires multiset(a) == multiset(b)
    ensures Sorted(a) == Sorted(b)
  {
    SortedIsPermutation(a);
    SortedIsPermutation(b);
    OrderedUnique(Sorted(a), Sorted(b));
  }

  lemma BelowSorted(s: seq<string>, rank: string -> nat, bound: nat)
    requires Below(s, rank, bound)
    ensures Below(Sorted(s), rank, bound)
  {
    SortedIsPermutation(s);
    var r := Sorted(s);
    forall i | 0 <= i < |r| ensures rank(r[i]) < bound {
      assert r[i] in multiset(r);
      assert r[i] in s;
    }
  }

  // ------------------------------------------------------------------ what the parser does

  /** Between two files no section is open and no import is waiting. */
  predicate Between(st: State) { st.open.None? && !st.bad && st.imports == [] }

  lemma OnLineImports(cfg: Config, st: State, line: Line)
    requires line.args != []
    ensures OnLine(cfg, st, line).imports == st.imports + ImportAt(cfg, line) && OnLine(cfg, st, line).parsed == st.parsed
  {
  }

  lemma {:induction false} OnLinesImports(cfg: Config, st: State, lines: seq<Line>)
    requires NonEmpty(lines)
    ensures OnLines(cfg, st, lines).imports == st.imports + ImportsOf(cfg, lines)
    ensures OnLines(cfg, st, lines).parsed == st.parsed
  {
    if lines != [] {
      var front := lines[..|lines| - 1];
      OnLinesImports(cfg, st, front);
      OnLineImports(cfg, OnLines(cfg, st, front), lines[|lines| - 1]);
    }
  }

  /** The end of a file: the open section is closed and the imports are moved out of the import parser. */
  function AtEnd(cfg: Config, st: State): State {
    var c := Close(cfg, st);
    c.(imports := [], calls := c.calls + [EndFile])
  }

  ghost function FileStep(cfg: Config, rank: string -> nat, file: string, st: State): (r: State)
    requires Acyclic(cfg, rank) && Between(st)
    ensures Between(r)
    decreases rank(file), 1, 0
  {
    if !cfg.allowed(file) || !cfg.fs(file).File? then st
    else
      var lines := Contents(cfg.fs(file).contents);
      var read := OnLines(cfg, st.(parsed := st.parsed + [file]), lines);
      OnLinesImports(cfg, st.(parsed := st.parsed + [file]), lines);
      EachStep(cfg, rank, read.imports, AtEnd(cfg, read), rank(file))
  }

  ghost function ConfigStep(cfg: Config, rank: string -> nat, path: string, st: State): (r: State)
    requires Acyclic(cfg, rank) && Between(st)
    ensures Between(r)
    decreases rank(path), 2, 0
  {
    match cfg.fs(path)
    case Dir(entries) =>
      if !cfg.allowed(path) then st
      else
        BelowSorted(entries, rank, rank(path));
        FilesStep(cfg, rank, Sorted(entries), st, rank(path))
    case _ => FileStep(cfg, rank, path, st)
  }

  ghost function EachStep(cfg: Config, rank: string -> nat, paths: seq<string>, st: State, bound: nat): (r: State)
    requires Acyclic(cfg, rank) && Between(st) && Below(paths, rank, bound)
    ensures Between(r)
    decreases bound, 0, |paths|
  {
    if paths == [] then st else EachStep(cfg, rank, paths[1..], ConfigStep(cfg, rank, paths[0], st), bound)
  }

  ghost function FilesStep(cfg: Config, rank: string -> nat, files: seq<string>, st: State, bound: nat): (r: State)
    requires Acyclic(cfg, rank) && Between(st) && Below(files, rank, bound)
    ensures Between(r)
    decreases bound, 0, |files|
  {
    if files == [] then st else FilesStep(cfg, rank, files[1..], FileStep(cfg, rank, files[0], st), bound)
  }

  // ------------------------------------------------------------------ the section protocol

  /** The documented life of a section: a successful start, its lines, one end; nothing else comes
      between. `None` is a violation, `Some(open)` the section open after the calls. */
  function Track(calls: seq<Call>): Option<Option<string>> {
    if calls == [] then Some(None) else Advance(Track(calls[..|calls| - 1]), calls[|calls| - 1])
  }

  function Advance(was: Option<Option<string>>, call: Call): Option<Option<string>> {
    match call
    case ParseSection(name, _, _, ok) => if was == Some(None) then Some(if ok then Some(name) else None) else None
    case ParseLine(name, _, _, _) => if was == Some(Some(name)) then was else None
    case EndSection(name, _) => if was == Some(Some(name)) then Some(None) else None
    case Callback(_, _) => if was == Some(None) then was else None
    case EndFile => if was == Some(None) then was else None
  }

  ghost predicate Protocol(st: State) { Track(st.calls) == Some(st.open) }

  lemma TrackLast(calls: seq<Call>, call: Call)
    ensures Track(calls + [call]) == Advance(Track(calls), call)
  {
    assert (calls + [call])[..|calls + [call]| - 1] == calls;
  }

  lemma CloseKeepsProtocol(cfg: Config, st: State)
    requires Protocol(st)
    ensures Protocol(Close(cfg, st)) && Close(cfg, st).open.None?
  {
    if st.open.Some? {
      var ok := st.open.value == IMPORT || cfg.verdict(|st.calls|);
      TrackLast(st.calls, EndSection(st.open.value, ok));
    }
  }

  lemma OpenKeepsProtocol(cfg: Config, st: State, line: Line)
    requires Protocol(st) && st.open.None? && line.args != []
    ensures Protocol(Open(cfg, st, line))
  {
    var name := line.args[0];
    var ok := if name == IMPORT then ImportOk(cfg, line.args) else cfg.verdict(|st.calls|);
    TrackLast(st.calls, ParseSection(name, line.args, line.number, ok));
  }

  lemma OnLineKeepsProtocol(cfg: Config, st: State, line: Line)
    requires Protocol(st) && line.args != []
    ensures Protocol(OnLine(cfg, st, line))
  {
    if StartsWithAny(line.args[0], cfg.prefixes) {
      CloseKeepsProtocol(cfg, st);
      var c := Close(cfg, st);
      TrackLast(c.calls, Callback(line.args, cfg.verdict(|c.calls|)));
    } else if line.args[0] in cfg.sections {
      CloseKeepsProtocol(cfg, st);
      OpenKeepsProtocol(cfg, Close(cfg, st), line);
    } else if st.open.Some? {
      var ok := st.open.value != IMPORT && cfg.verdict(|st.calls|);
      TrackLast(st.calls, ParseLine(st.open.value, line.args, line.number, ok));
    }
  }

  lemma {:induction false} OnLinesKeepsProtocol(cfg: Config, st: State, lines: seq<Line>)
    requires Protocol(st) && NonEmpty(lines)
    ensures Protocol(OnLines(cfg, st, lines))
  {
    if lines != [] {
      OnLinesKeepsProtocol(cfg, st, lines[..|lines| - 1]);
      OnLineKeepsProtocol(cfg, OnLines(cfg, st, lines[..|lines| - 1]), lines[|lines| - 1]);
    }
  }

  /** What every parse keeps: it appends the documented import order to the files parsed, and the
      calls made so far still follow the section protocol, nested files included. */
  ghost predicate Parses(st: State, r: State, order: seq<string>) {
    && r.parsed == st.parsed + order
    && (Protocol(st) ==> Protocol(r))
  }

  /** Reading one file, up to the point where its imports are followed. */
  lemma ReadKeeps(cfg: Config, st: State, file: string, lines: seq<Line>)
    requires Between(st) && NonEmpty(lines)
    ensures var read := OnLines(cfg, st.(parsed := st.parsed + [file]), lines);
            && read.imports == ImportsOf(cfg, lines)
            && Parses(st, AtEnd(cfg, read), [file])
  {
    var from := st.(parsed := st.parsed + [file]);
    OnLinesImports(cfg, from, lines);
    if Protocol(st) { EndKeepsProtocol(cfg, from, lines); }
  }

  lemma ParsesJoin(st: State, mid: State, r: State, a: seq<string>, b: seq<string>)
    requires Parses(st, mid, a) && Parses(mid, r, b)
    ensures Parses(st, r, a + b)
  {
  }

  lemma EndKeepsProtocol(cfg: Config, st: State, lines: seq<Line>)
    requires Protocol(st) && NonEmpty(lines)
    ensures Protocol(AtEnd(cfg, OnLines(cfg, st, lines)))
  {
    var read := OnLines(cfg, st, lines);
    OnLinesKeepsProtocol(cfg, st, lines);
    CloseKeepsProtocol(cfg, read);
    TrackLast(Close(cfg, read).calls, EndFile);
  }

  lemma {:induction false} FileInOrder(cfg: Config, rank: string -> nat, file: string, st: State)
    requires Acyclic(cfg, rank) && Between(st)
    ensures Parses(st, FileStep(cfg, rank, file, st), ImportFile(cfg, rank, file))
    decreases rank(file), 1, 0
  {
    if cfg.allowed(file) && cfg.fs(file).File? {
      var lines := Contents(cfg.fs(file).contents);
      var read := OnLines(cfg, st.(parsed := st.parsed + [file]), lines);
      ReadKeeps(cfg, st, file, lines);
      var end, paths := AtEnd(cfg, read), read.imports;
      EachInOrder(cfg, rank, paths, end, rank(file));
      ParsesJoin(st, end, EachStep(cfg, rank, paths, end, rank(file)), [file], ImportEach(cfg, rank, paths, rank(file)));
    }
  }

  /** In every acyclic import graph the files are parsed in the documented order, although one import
      parser is shared by all of them and re-entered from its own end-of-file hook. */
  lemma {:induction false} ConfigInOrder(cfg: Config, rank: string -> nat, path: string, st: State)
    requires Acyclic(cfg, rank) && Between(st)
    ensures Parses(st, ConfigStep(cfg, rank, path, st), Import(cfg, rank, path))
    decreases rank(path), 2, 0
  {
    match cfg.fs(path)
    case Dir(entries) =>
      if cfg.allowed(path) {
        BelowSorted(entries, rank, rank(path));
        FilesInOrder(cfg, rank, Sorted(entries), st, rank(path));
      }
    case _ => FileInOrder(cfg, rank, path, st);
  }

  lemma {:induction false} EachInOrder(cfg: Config, rank: string -> nat, paths: seq<string>, st: State, bound: nat)
    requires Acyclic(cfg, rank) && Between(st) && Below(paths, rank, bound)
    ensures Parses(st, EachStep(cfg, rank, paths, st, bound), ImportEach(cfg, rank, paths, bound))
    decreases bound, 0, |paths|
  {
    if paths != [] {
      var mid := ConfigStep(cfg, rank, paths[0], st);
      ConfigInOrder(cfg, rank, paths[0], st);
      EachInOrder(cfg, rank, paths[1..], mid, bound);
      ParsesJoin(st, mid, EachStep(cfg, rank, paths[1..], mid, bound),
                 Import(cfg, rank, paths[0]), ImportEach(cfg, rank, paths[1..], bound));
    }
  }

  lemma {:induction false} FilesInOrder(cfg: Config, rank: string -> nat, files: seq<string>, st: State, bound: nat)
    requires Acyclic(cfg, rank) && Between(st) && Below(files, rank, bound)
    ensures Parses(st, FilesStep(cfg, rank, files, st, bound), ImportFiles(cfg, rank, files, bound))
    decreases bound, 0, |files|
  {
    if files != [] {
      var mid := FileStep(cfg, rank, files[0], st);
      FileInOrder(cfg, rank, files[0], st);
      FilesInOrder(cfg, rank, files[1..], mid, bound);
      ParsesJoin(st, mid, FilesStep(cfg, rank, files[1..], mid, bound),
                 ImportFile(cfg, rank, files[0]), ImportFiles(cfg, rank, files[1..], bound));
    }
  }

  lemma UnfoldNewline(c: Cursor, args: seq<string>, next: Cursor)
    requires Next(c) == Step(Newline, next)
    ensures Lines(c, args) == (if args == [] then [] else [Line(args, next.line + 1)]) + Lines(AtNewline(next), [])
  {
  }

  lemma AppendLines(done: seq<Line>, line: Line, rest: seq<Line>)
    ensures done + [line] + rest == done + ([line] + rest) && [] + rest == rest
  {
  }

  // ------------------------------------------------------------------ the parser object

  class Parser {
    const cfg: Config
    var open: Option<string>
    var bad: bool
    var calls: seq<Call>
    var errors: nat
    var imports: seq<string>
    ghost var parsed: seq<string>

    constructor (cfg: Config)
      ensures this.cfg == cfg && View() == State(None, false, [], 0, [], [])
    {
      this.cfg := cfg;
      open, bad, calls, errors, imports, parsed := None, false, [], 0, [], [];
    }

    ghost function View(): State
      reads this
    {
      State(open, bad, calls, errors, imports, parsed)
    }

    method CloseSection()
      modifies this
      ensures View() == Close(cfg, old(View()))
    {
      bad := false;
      if open.None? { return; }
      var ok := open.value == IMPORT || cfg.verdict(|calls|);
      calls := calls + [EndSection(open.value, ok)];
      if !ok { errors := errors + 1; }
      open := None;
    }

    method OpenSection(args: seq<string>, number: nat)
      requires args != []
      modifies this
      ensures View() == Open(cfg, old(View()), Line(args, number))
    {
      var ok;
      if args[0] == IMPORT {
        ok := ParseImport(args);
      } else {
        ok := cfg.verdict(|calls|);
      }
      calls := calls + [ParseSection(args[0], args, number, ok)];
      open := Some(args[0]);
      bad := false;
      if !ok {
        errors := errors + 1;
        open := None;
        bad := true;
      }
    }

    /** The import parser's section start. */
    method ParseImport(args: seq<string>) returns (ok: bool)
      modifies this`imports
      ensures ok == ImportOk(cfg, args)
      ensures imports == old(imports) + match ImportOf(cfg, args) case None => [] case Some(path) => [path]
    {
      if |args| != 2 { return false; }
      match cfg.expand(args[1])
      case None => return false;
      case Some(path) =>
        if cfg.allowed(path) { imports := imports + [path]; }
        return true;
    }

    /** The newline case of the token loop. */
    method HandleLine(args: seq<string>, number: nat)
      requires args != []
      modifies this
      ensures View() == OnLine(cfg, old(View()), Line(args, number))
    {
      if exists i :: 0 <= i < |cfg.prefixes| && cfg.prefixes[i] <= args[0] {
        CloseSection();
        var ok := cfg.verdict(|calls|);
        calls := calls + [Callback(args, ok)];
        if !ok { errors := errors + 1; }
      } else if args[0] in cfg.sections {
        CloseSection();
        OpenSection(args, number);
      } else if open.Some? {
        var ok := open.value != IMPORT && cfg.verdict(|calls|);
        calls := calls + [ParseLine(open.value, args, number, ok)];
        if !ok { errors := errors + 1; }
      } else if !bad {
        errors := errors + 1;
      }
    }

    method ParseData(ghost rank: string -> nat, path: string, contents: string)
      requires Acyclic(cfg, rank) && Between(View())
      requires cfg.allowed(path) && cfg.fs(path) == File(contents)
      modifies this
      ensures View() == FileStep(cfg, rank, path, old(View()))
      decreases rank(path), 1, 0, 0
    {
      parsed := parsed + [path];
      OnLinesImports(cfg, View(), Contents(contents));
      TokenLoop(contents);
      CloseSection();
      EndOfFile(rank, path);
    }

    /** The token loop: the file is copied into a buffer, and the scanner takes it apart in place. */
    method TokenLoop(contents: string)
      modifies this
      ensures View() == OnLines(cfg, old(View()), Contents(contents))
    {
      var data := contents + ['\n', NUL];
      var buf := new char[|data|](i requires 0 <= i < |data| => data[i]);
      assert buf[..] == data;
      var state := new ParseState(buf);
      var args: seq<string> := [];
      ghost var done: seq<Line> := [];
      var more := true;
      while more
        invariant state.Valid() && fresh(state) && fresh(state.buf)
        invariant NonEmpty(done) && View() == OnLines(cfg, old(View()), done)
        invariant done + (if more then Lines(state.View(), args) else []) == FileLines(contents)
        decreases if more then 1 + Measure(state.View()) else 0
      {
        more, args, done := OneToken(state, args, done, old(View()));
      }
      assert done == Contents(contents);
    }

    /** One turn of the token loop: what was still to come is what is read now and what comes after. */
    method OneToken(state: ParseState, args0: seq<string>, ghost done0: seq<Line>, ghost from: State)
      returns (more: bool, args: seq<string>, ghost done: seq<Line>)
      requires state.Valid() && NonEmpty(done0) && View() == OnLines(cfg, from, done0)
      modifies this, state, state.buf
      ensures state.Valid() && NonEmpty(done) && View() == OnLines(cfg, from, done)
      ensures more ==> Measure(state.View()) < Measure(old(state.View()))
      ensures done + (if more then Lines(state.View(), args) else []) == done0 + Lines(old(state.View()), args0)
    {
      ghost var before := state.View();
      NextProgress(before);
      args, done, more := args0, done0, true;
      var token := Read(state);
      ghost var after := state.View();
      match token
      case Eof =>
        more := false;
      case Newline =>
        done := NewlineToken(state, args, done, from);
        args := [];
        UnfoldNewline(before, args0, after);
        AppendLines(done0, Line(args0, after.line + 1), Lines(AtNewline(after), []));
      case Text(text) =>
        args := args + [text];
        UnfoldText(before, args0, text, after);
    }

    /** The next token, with its text if it has one. */
    method Read(state: ParseState) returns (token: Token)
      requires state.Valid()
      modifies state, state.buf
      ensures state.Valid()
      ensures token == Next(old(state.View())).token && state.View() == Next(old(state.View())).next
    {
      var kind := state.NextToken();
      match kind
      case T_EOF => token := Eof;
      case T_NEWLINE => token := Newline;
      case T_TEXT =>
        var text := state.Text();
        token := Text(text);
    }

    method NewlineToken(state: ParseState, args: seq<string>, ghost done: seq<Line>, ghost from: State) returns (ghost more: seq<Line>)
      requires state.Valid() && NonEmpty(done) && View() == OnLines(cfg, from, done)
      modifies this, state`line
      ensures state.Valid() && state.View() == AtNewline(old(state.View()))
      ensures more == (if args == [] then done else done + [Line(args, old(state.View()).line + 1)]) && NonEmpty(more)
      ensures View() == OnLines(cfg, from, more)
    {
      state.line := state.line + 1;
      more := EndLine(args, state.line, done, from);
    }

    /** The end of a line, which is handled unless it is empty. */
    method EndLine(args: seq<string>, number: nat, ghost done: seq<Line>, ghost from: State) returns (ghost more: seq<Line>)
      requires NonEmpty(done) && View() == OnLines(cfg, from, done)
      modifies this
      ensures more == (if args == [] then done else done + [Line(args, number)]) && NonEmpty(more)
      ensures View() == OnLines(cfg, from, more)
    {
      more := done;
      if args != [] {
        HandleLine(args, number);
        more := Extend(done, Line(args, number), from);
      }
    }

    ghost method Extend(done: seq<Line>, line: Line, from: State) returns (more: seq<Line>)
      requires NonEmpty(done) && line.args != []
      ensures more == done + [line] && NonEmpty(more)
      ensures OnLines(cfg, from, more) == OnLine(cfg, OnLines(cfg, from, done), line)
    {
      more := done + [line];
      assert more[..|more| - 1] == done;
    }

    /** The import parser's end-of-file hook: take the list, clear it, then follow it. */
    method EndOfFile(ghost rank: string -> nat, ghost path: string)
      requires Acyclic(cfg, rank) && open.None? && !bad && Below(imports, rank, rank(path))
      modifies this
      ensures View() == EachStep(cfg, rank, old(imports), AtEnd(cfg, old(View())), rank(path))
      decreases rank(path), 0, |imports| + 1, 0
    {
      var current := imports;
      imports := [];
      calls := calls + [EndFile];
      ghost var from := View();
      var i := 0;
      while i < |current|
        invariant 0 <= i <= |current| && Between(View())
        invariant EachStep(cfg, rank, current[i..], View(), rank(path)) == EachStep(cfg, rank, current, from, rank(path))
      {
        assert current[i..][1..] == current[i + 1..];
        var _ := ParseConfig(rank, current[i]);
        i := i + 1;
      }
    }

    method ParseConfigFile(ghost rank: string -> nat, path: string) returns (ok: bool)
      requires Acyclic(cfg, rank) && Between(View())
      modifies this
      ensures View() == FileStep(cfg, rank, path, old(View()))
      ensures ok <==> cfg.allowed(path) ==> cfg.fs(path).File?
      decreases rank(path), 1, 1, 0
    {
      if !cfg.allowed(path) { return true; }
      match cfg.fs(path)
      case File(contents) =>
        ParseData(rank, path, contents);
        return true;
      case _ => return false;
    }

    method ParseConfigDir(ghost rank: string -> nat, path: string) returns (ok: bool)
      requires Acyclic(cfg, rank) && Between(View()) && (cfg.fs(path).Dir? || cfg.fs(path).Locked?)
      modifies this
      ensures View() == ConfigStep(cfg, rank, path, old(View()))
      ensures ok <==> cfg.allowed(path) ==> cfg.fs(path).Dir?
      decreases rank(path), 2, 0, 0
    {
      if !cfg.allowed(path) { return true; }
      if cfg.fs(path).Locked? { return false; }
      var entries := cfg.fs(path).entries;
      BelowSorted(entries, rank, rank(path));
      ghost var from := View();
      var files := Sorted(entries);
      var i := 0;
      while i < |files|
        invariant 0 <= i <= |files| && Between(View())
        invariant FilesStep(cfg, rank, files[i..], View(), rank(path)) == FilesStep(cfg, rank, files, from, rank(path))
      {
        assert files[i..][1..] == files[i + 1..];
        var _ := ParseConfigFile(rank, files[i]);
        i := i + 1;
      }
      ok := true;
    }

    /** Parse a path and everything it imports: the files come in the documented order and every
        section parser sees only whole sections. It fails exactly if the path itself cannot be read. */
    method ParseConfig(ghost rank: string -> nat, path: string) returns (ok: bool)
      requires Acyclic(cfg, rank) && Between(View())
      modifies this
      ensures View() == ConfigStep(cfg, rank, path, old(View())) && Between(View())
      ensures parsed == old(parsed) + Import(cfg, rank, path)
      ensures ok <==> cfg.allowed(path) ==> cfg.fs(path).File? || cfg.fs(path).Dir?
      ensures old(Track(calls)) == Some(None) ==> Track(calls) == Some(None)
      decreases rank(path), 2, 1, 0
    {
      ghost var was := View();
      if cfg.fs(path).Dir? || cfg.fs(path).Locked? {
        ok := ParseConfigDir(rank, path);
      } else {
        ok := ParseConfigFile(rank, path);
      }
      ConfigInOrder(cfg, rank, path, was);
    }
  }
}

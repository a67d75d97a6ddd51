/** What the parser hands out, read off the lines of a file alone: which paths it imports, which section
    parser gets which lines, how many errors there are, and in which order a directory is read. */
module RcSections {
  import opened Wrappers
  import opened TokenLines
  import opened RcParser

  // ------------------------------------------------------------------ imports

  /** The line asks for the path: it is an import section with one argument, which expands to the path, and
      the boot policy allows that. */
  predicate Asks(cfg: Config, args: seq<string>, path: string) {
    && |args| == 2 && args[0] == "import" && cfg.expand(args[1]) == Some(path) && cfg.allowed(path)
    && "import" in cfg.sections && forall i :: 0 <= i < |cfg.prefixes| ==> !(cfg.prefixes[i] <= "import")
  }

  ghost predicate Rising(ks: seq<nat>, bound: nat) {
    && (forall j :: 0 <= j < |ks| ==> ks[j] < bound)
    && forall i, j :: 0 <= i < j < |ks| ==> ks[i] < ks[j]
  }

  /** These paths are asked for by those lines, in order, and no other line asks for any. */
  ghost predicate AskedFor(cfg: Config, lines: seq<Line>, paths: seq<string>, ks: seq<nat>) {
    && |ks| == |paths| && Rising(ks, |lines|)
    && (forall j :: 0 <= j < |paths| ==> Asks(cfg, lines[ks[j]].args, paths[j]))
    && forall k, path :: 0 <= k < |lines| && Asks(cfg, lines[k].args, path) ==> k in ks
  }

  lemma ImportAtAsks(cfg: Config, line: Line)
    requires line.args != []
    ensures forall path :: Asks(cfg, line.args, path) <==> ImportAt(cfg, line) == [path]
    ensures |ImportAt(cfg, line)| <= 1
  {
  }

  /** The imports of a file are, in order, exactly what its lines ask for. */
  lemma {:induction false} ImportsAreAskedFor(cfg: Config, lines: seq<Line>) returns (ks: seq<nat>)
    requires NonEmpty(lines)
    ensures AskedFor(cfg, lines, ImportsOf(cfg, lines), ks)
  {
    if lines == [] {
      ks := [];
    } else {
      var n := |lines| - 1;
      ks := ImportsAreAskedFor(cfg, lines[..n]);
      ImportAtAsks(cfg, lines[n]);
      if ImportAt(cfg, lines[n]) != [] { ks := ks + [n]; }
    }
  }

  /** So the list that the parser collects from a file is what its lines ask for. */
  lemma CollectedAreAskedFor(cfg: Config, st: State, lines: seq<Line>) returns (ks: seq<nat>)
    requires NonEmpty(lines)
    ensures st.imports <= OnLines(cfg, st, lines).imports
    ensures AskedFor(cfg, lines, OnLines(cfg, st, lines).imports[|st.imports|..], ks)
  {
    OnLinesImports(cfg, st, lines);
    ks := ImportsAreAskedFor(cfg, lines);
  }

  /** A file is followed by what its lines ask for, each with all that it leads to. */
  lemma FileThenAskedFor(cfg: Config, rank: string -> nat, file: string) returns (ks: seq<nat>, paths: seq<string>)
    requires Acyclic(cfg, rank) && cfg.allowed(file) && cfg.fs(file).File?
    ensures AskedFor(cfg, Contents(cfg.fs(file).contents), paths, ks)
    ensures Below(paths, rank, rank(file)) && Import(cfg, rank, file) == [file] + ImportEach(cfg, rank, paths, rank(file))
  {
    paths := ImportsOf(cfg, Contents(cfg.fs(file).contents));
    ks := ImportsAreAskedFor(cfg, Contents(cfg.fs(file).contents));
  }

  // ------------------------------------------------------------------ alphabetical order

  /** Files are ordered by the first character in which their names differ; a name comes before those it
      begins. */
  lemma {:induction false} AtMostIff(a: string, b: string)
    ensures AtMost(a, b) <==> a <= b || exists k :: 0 <= k < |a| && k < |b| && a[..k] == b[..k] && a[k] < b[k]
  {
    if a != [] && b != [] && a[0] == b[0] {
      AtMostIff(a[1..], b[1..]);
      assert a == [a[0]] + a[1..] && b == [b[0]] + b[1..];
      assert a[1..] <= b[1..] <==> a <= b;
      if k :| 0 <= k < |a[1..]| && k < |b[1..]| && a[1..][..k] == b[1..][..k] && a[1..][k] < b[1..][k] {
        assert a[..k + 1] == [a[0]] + a[1..][..k] && b[..k + 1] == [b[0]] + b[1..][..k];
        assert a[k + 1] < b[k + 1];
      }
      if k :| 0 <= k < |a| && k < |b| && a[..k] == b[..k] && a[k] < b[k] {
        assert a[1..][..k - 1] == a[..k][1..] && b[1..][..k - 1] == b[..k][1..];
        assert a[1..][k - 1] < b[1..][k - 1];
      }
    } else if a != [] && b != [] && a[0] < b[0] {
      assert a[..0] == b[..0];
    }
  }

  // ------------------------------------------------------------------ sections

  /** The calls that hand out lines. */
  ghost function Handed(calls: seq<Call>): seq<Call> {
    if calls == [] then []
    else
      var last := calls[|calls| - 1];
      Handed(calls[..|calls| - 1]) + if last.EndSection? || last.EndFile? then [] else [last]
  }

  /** The latest line that began or ended a section, as it was handed out. */
  ghost function Head(handed: seq<Call>): Option<Call> {
    if handed == [] then None
    else
      var last := handed[|handed| - 1];
      if last.ParseSection? || last.Callback? then Some(last) else Head(handed[..|handed| - 1])
  }

  ghost predicate HasPrefix(cfg: Config, word: string) { exists i :: 0 <= i < |cfg.prefixes| && cfg.prefixes[i] <= word }

  /** The section that lines go to. */
  ghost function OpenIn(handed: seq<Call>): Option<string> {
    match Head(handed)
    case Some(ParseSection(name, _, _, true)) => Some(name)
    case _ => None
  }

  ghost predicate StartFailed(handed: seq<Call>) { Head(handed).Some? && Head(handed).value.ParseSection? && !Head(handed).value.ok }

  /** The line is handed to its callback or to the section it names. */
  ghost predicate Heads(cfg: Config, line: Line, call: Call)
    requires line.args != []
  {
    if HasPrefix(cfg, line.args[0]) then call.Callback? && call.args == line.args
    else call.ParseSection? && call.name == line.args[0] && call.args == line.args && call.number == line.number
  }

  ghost predicate IsLineOf(name: string, line: Line, call: Call) {
    call.ParseLine? && call.name == name && call.args == line.args && call.number == line.number
  }

  /** The lines are handed out like this: one with a known prefix to its callback, one that names a section to
      that section, and any other to the section begun last. A line for which there is no section is dropped:
      it is a stray, unless the last section has failed to start. */
  ghost predicate Deals(cfg: Config, lines: seq<Line>, handed: seq<Call>, strays: nat)
    requires NonEmpty(lines)
    decreases |lines|
  {
    if lines == [] then handed == [] && strays == 0
    else
      var front, line := lines[..|lines| - 1], lines[|lines| - 1];
      if HasPrefix(cfg, line.args[0]) || line.args[0] in cfg.sections then
        handed != [] && Heads(cfg, line, handed[|handed| - 1]) && Deals(cfg, front, handed[..|handed| - 1], strays)
      else if OpenIn(handed).Some? then
        && IsLineOf(OpenIn(handed).value, line, handed[|handed| - 1])
        && Deals(cfg, front, handed[..|handed| - 1], strays)
      else if StartFailed(handed) then Deals(cfg, front, handed, strays)
      else strays > 0 && Deals(cfg, front, handed, strays - 1)
  }

  /** What each call may answer: the import parser wants one argument that expands, and no lines; the verdicts
      of the others are theirs. */
  ghost predicate Judged(cfg: Config, call: Call, k: nat) {
    match call
    case ParseSection(name, args, _, ok) => ok <==> if name == "import" then |args| == 2 && cfg.expand(args[1]).Some? else cfg.verdict(k)
    case ParseLine(name, _, _, ok) => ok <==> name != "import" && cfg.verdict(k)
    case EndSection(name, ok) => ok <==> name == "import" || cfg.verdict(k)
    case Callback(_, ok) => ok <==> cfg.verdict(k)
    case EndFile => true
  }

  ghost predicate JudgedFrom(cfg: Config, calls: seq<Call>, from: nat) { forall k :: 0 <= k < |calls| ==> Judged(cfg, calls[k], from + k) }

  function Failures(calls: seq<Call>): nat {
    if calls == [] then 0
    else Failures(calls[..|calls| - 1]) + if calls[|calls| - 1] != EndFile && !calls[|calls| - 1].ok then 1 else 0
  }

  // ------------------------------------------------------------------ the parser deals like that

  /** The calls since the file began, what has been handed out and dropped, and where the parser stands. */
  ghost predicate Dealt(cfg: Config, st: State, lines: seq<Line>, r: State, new': seq<Call>, strays: nat)
    requires NonEmpty(lines)
  {
    && r.calls == st.calls + new' && Deals(cfg, lines, Handed(new'), strays)
    && JudgedFrom(cfg, new', |st.calls|) && r.errors == st.errors + strays + Failures(new')
    && Stands(r, Handed(new'))
  }

  ghost predicate Stands(r: State, handed: seq<Call>) { r.open == OpenIn(handed) && (r.bad <==> StartFailed(handed)) }

  lemma LastOf<T>(s: seq<T>, x: T)
    ensures (s + [x])[..|s + [x]| - 1] == s && (s + [x])[|s + [x]| - 1] == x
  {
  }

  /** One more call. */
  lemma CallMore(calls: seq<Call>, call: Call)
    ensures Handed(calls + [call]) == if call.EndSection? || call.EndFile? then Handed(calls) else Handed(calls) + [call]
    ensures Failures(calls + [call]) == Failures(calls) + if call != EndFile && !call.ok then 1 else 0
  {
    LastOf(calls, call);
  }

  lemma HeadMore(handed: seq<Call>, call: Call)
    ensures Head(handed + [call]) == if call.ParseSection? || call.Callback? then Some(call) else Head(handed)
  {
    LastOf(handed, call);
  }

  /** Closing the open section: its end is one more call, and nothing is handed out. */
  lemma CloseDeals(cfg: Config, st: State, lines: seq<Line>, r: State, new': seq<Call>, strays: nat) returns (more: seq<Call>)
    requires NonEmpty(lines) && Dealt(cfg, st, lines, r, new', strays)
    ensures var c := Close(cfg, r); c.calls == st.calls + more && c.errors == st.errors + strays + Failures(more)
    ensures Handed(more) == Handed(new') && JudgedFrom(cfg, more, |st.calls|)
  {
    more := new';
    if r.open.Some? {
      var call := EndSection(r.open.value, r.open.value == IMPORT || cfg.verdict(|r.calls|));
      CallMore(new', call);
      JudgedMore(cfg, new', |st.calls|, call);
      more := new' + [call];
      assert st.calls + new' + [call] == st.calls + more;
    }
  }

  lemma DealsHead(cfg: Config, lines: seq<Line>, handed: seq<Call>, strays: nat, line: Line, call: Call)
    requires NonEmpty(lines) && Deals(cfg, lines, handed, strays) && line.args != [] && Heads(cfg, line, call)
    requires HasPrefix(cfg, line.args[0]) || line.args[0] in cfg.sections
    ensures Deals(cfg, lines + [line], handed + [call], strays)
  {
    LastOf(lines, line);
    LastOf(handed, call);
  }

  lemma DealsLine(cfg: Config, lines: seq<Line>, handed: seq<Call>, strays: nat, line: Line, call: Call)
    requires NonEmpty(lines) && Deals(cfg, lines, handed, strays) && line.args != []
    requires !HasPrefix(cfg, line.args[0]) && line.args[0] !in cfg.sections
    requires OpenIn(handed).Some? && IsLineOf(OpenIn(handed).value, line, call)
    ensures Deals(cfg, lines + [line], handed + [call], strays)
  {
    LastOf(lines, line);
    LastOf(handed, call);
    HeadMore(handed, call);
  }

  lemma DealsDropped(cfg: Config, lines: seq<Line>, handed: seq<Call>, strays: nat, line: Line)
    requires NonEmpty(lines) && Deals(cfg, lines, handed, strays) && line.args != []
    requires !HasPrefix(cfg, line.args[0]) && line.args[0] !in cfg.sections && OpenIn(handed).None?
    ensures Deals(cfg, lines + [line], handed, if StartFailed(handed) then strays else strays + 1)
  {
    LastOf(lines, line);
  }

  lemma JudgedMore(cfg: Config, calls: seq<Call>, from: nat, call: Call)
    requires JudgedFrom(cfg, calls, from) && Judged(cfg, call, from + |calls|)
    ensures JudgedFrom(cfg, calls + [call], from)
  {
  }

  /** The call that a line with a known prefix, or one that names a section, makes. */
  lemma HeadCall(cfg: Config, r: State, line: Line) returns (call: Call)
    requires line.args != [] && (HasPrefix(cfg, line.args[0]) || line.args[0] in cfg.sections)
    ensures call.Callback? || call.ParseSection?
    ensures var c, t := Close(cfg, r), OnLine(cfg, r, line);
            && t.calls == c.calls + [call] && t.errors == c.errors + (if call.ok then 0 else 1)
            && Heads(cfg, line, call) && Judged(cfg, call, |c.calls|)
            && t.open == (if call.ParseSection? && call.ok then Some(call.name) else None) && (t.bad <==> call.ParseSection? && !call.ok)
  {
    var t := OnLine(cfg, r, line);
    call := t.calls[|t.calls| - 1];
  }

  lemma HeadStands(t: State, handed: seq<Call>, call: Call)
    requires call.Callback? || call.ParseSection?
    requires t.open == (if call.ParseSection? && call.ok then Some(call.name) else None) && (t.bad <==> call.ParseSection? && !call.ok)
    ensures Stands(t, handed + [call])
  {
    HeadMore(handed, call);
  }

  lemma DealtMore(cfg: Config, st: State, lines: seq<Line>, c: State, t: State, new': seq<Call>, call: Call, strays: nat)
    requires NonEmpty(lines) && !call.EndSection? && !call.EndFile? && t.calls == c.calls + [call]
    requires c.calls == st.calls + new' && c.errors == st.errors + strays + Failures(new') && JudgedFrom(cfg, new', |st.calls|)
    requires t.errors == c.errors + (if call.ok then 0 else 1) && Judged(cfg, call, |c.calls|)
    requires Deals(cfg, lines, Handed(new') + [call], strays) && Stands(t, Handed(new') + [call])
    ensures Dealt(cfg, st, lines, t, new' + [call], strays)
  {
    CallMore(new', call);
    JudgedMore(cfg, new', |st.calls|, call);
    assert st.calls + new' + [call] == st.calls + (new' + [call]);
  }

  lemma HeadLineDeals(cfg: Config, st: State, lines: seq<Line>, r: State, line: Line, new': seq<Call>, strays: nat) returns (more: seq<Call>)
    requires NonEmpty(lines) && Dealt(cfg, st, lines, r, new', strays) && line.args != []
    requires HasPrefix(cfg, line.args[0]) || line.args[0] in cfg.sections
    ensures Dealt(cfg, st, lines + [line], OnLine(cfg, r, line), more, strays)
  {
    var closed := CloseDeals(cfg, st, lines, r, new', strays);
    var call := HeadCall(cfg, r, line);
    HeadStands(OnLine(cfg, r, line), Handed(closed), call);
    DealsHead(cfg, lines, Handed(closed), strays, line, call);
    DealtMore(cfg, st, lines + [line], Close(cfg, r), OnLine(cfg, r, line), closed, call, strays);
    more := closed + [call];
  }

  lemma OpenLineDeals(cfg: Config, st: State, lines: seq<Line>, r: State, line: Line, new': seq<Call>, strays: nat) returns (more: seq<Call>)
    requires NonEmpty(lines) && Dealt(cfg, st, lines, r, new', strays) && line.args != [] && r.open.Some?
    requires !HasPrefix(cfg, line.args[0]) && line.args[0] !in cfg.sections
    ensures Dealt(cfg, st, lines + [line], OnLine(cfg, r, line), more, strays)
  {
    var call := ParseLine(r.open.value, line.args, line.number, r.open.value != IMPORT && cfg.verdict(|r.calls|));
    HeadMore(Handed(new'), call);
    DealsLine(cfg, lines, Handed(new'), strays, line, call);
    DealtMore(cfg, st, lines + [line], r, OnLine(cfg, r, line), new', call, strays);
    more := new' + [call];
  }

  lemma DroppedLineDeals(cfg: Config, st: State, lines: seq<Line>, r: State, line: Line, new': seq<Call>, strays: nat) returns (n: nat)
    requires NonEmpty(lines) && Dealt(cfg, st, lines, r, new', strays) && line.args != [] && r.open.None?
    requires !HasPrefix(cfg, line.args[0]) && line.args[0] !in cfg.sections
    ensures Dealt(cfg, st, lines + [line], OnLine(cfg, r, line), new', n)
  {
    DealsDropped(cfg, lines, Handed(new'), strays, line);
    n := if r.bad then strays else strays + 1;
  }

  /** Every line of a file is handed out as it should be, and the errors counted are the calls that failed and
      the strays. */
  lemma {:induction false} LinesAreDealt(cfg: Config, st: State, lines: seq<Line>) returns (new': seq<Call>, strays: nat)
    requires NonEmpty(lines) && st.open.None? && !st.bad
    ensures Dealt(cfg, st, lines, OnLines(cfg, st, lines), new', strays)
  {
    if lines == [] {
      new', strays := [], 0;
      assert st.calls + [] == st.calls;
    } else {
      var front, line := lines[..|lines| - 1], lines[|lines| - 1];
      assert lines == front + [line];
      new', strays := LinesAreDealt(cfg, st, front);
      if HasPrefix(cfg, line.args[0]) || line.args[0] in cfg.sections {
        new' := HeadLineDeals(cfg, st, front, OnLines(cfg, st, front), line, new', strays);
      } else if OnLines(cfg, st, front).open.Some? {
        new' := OpenLineDeals(cfg, st, front, OnLines(cfg, st, front), line, new', strays);
      } else {
        strays := DroppedLineDeals(cfg, st, front, OnLines(cfg, st, front), line, new', strays);
      }
    }
  }

  /** A whole file, up to the point where its imports are followed: then its last section is ended and every
      section parser hears of the end of the file. */
  lemma FileIsDealt(cfg: Config, st: State, lines: seq<Line>) returns (new': seq<Call>, strays: nat)
    requires NonEmpty(lines) && Between(st)
    ensures var r := AtEnd(cfg, OnLines(cfg, st, lines));
            r.calls == st.calls + new' + [EndFile] && r.errors == st.errors + strays + Failures(new') && Between(r)
    ensures Deals(cfg, lines, Handed(new'), strays) && JudgedFrom(cfg, new', |st.calls|)
  {
    new', strays := LinesAreDealt(cfg, st, lines);
    new' := CloseDeals(cfg, st, lines, OnLines(cfg, st, lines), new', strays);
  }
}

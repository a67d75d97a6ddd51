/** Names: which service names are legal, and why the names made up for `exec` commands clash neither
    with those nor with each other. */
module Names {

  const PROP_VALUE_MAX := 92

  predicate LegalChar(c: char) {
    c == '.' || c == '_' || c == '-' || c == '@' || c == ':' || 'a' <= c <= 'z' || 'A' <= c <= 'Z' || '0' <= c <= '9'
  }

  /** Legal characters only, and dots only between other characters. */
  predicate Legal(name: string) {
    && name != [] && name[0] != '.' && name[|name| - 1] != '.'
    && (forall i :: 0 <= i < |name| ==> LegalChar(name[i]))
    && (forall i :: 0 < i < |name| && name[i] == '.' ==> name[i - 1] != '.')
  }

  method IsLegalPropertyName(name: string) returns (legal: bool)
    ensures legal <==> Legal(name)
  {
    if |name| < 1 { return false; }
    if name[0] == '.' { return false; }
    if name[|name| - 1] == '.' { return false; }
    var i := 0;
    while i < |name|
      invariant 0 <= i <= |name|
      invariant forall j :: 0 <= j < i ==> LegalChar(name[j])
      invariant forall j :: 0 < j < i && name[j] == '.' ==> name[j - 1] != '.'
    {
      var c := name[i];
      if c == '.' {
        if name[i - 1] == '.' { return false; }
      } else if c == '_' || c == '-' || c == '@' || c == ':' {
      } else if 'a' <= c <= 'z' {
      } else if 'A' <= c <= 'Z' {
      } else if '0' <= c <= '9' {
      } else {
        return false;
      }
      i := i + 1;
    }
    return true;
  }

  const PREFIX: string := "init.svc."

  predicate ValidName(name: string) { Legal(PREFIX + name) && |name| <= PROP_VALUE_MAX }

  /** A file may give a service any legal property name of at most 92 characters. */
  lemma ValidNameIff(name: string)
    ensures ValidName(name) <==> Legal(name) && |name| <= 92
  {
    var full := "init.svc." + name;
    assert forall i :: 0 <= i < |name| ==> full[9 + i] == name[i];
    assert forall i :: 0 <= i < 9 ==> full[i] == "init.svc."[i];
    if Legal(full) && name != [] {
      assert full[9] == name[0] && full[8] == '.';
      forall i | 0 < i < |name| && name[i] == '.' ensures name[i - 1] != '.' { assert full[9 + i] == '.'; }
    }
  }

  // ------------------------------------------------------------------ made-up names

  function Digit(d: nat): char
    requires d < 10
  {
    "0123456789"[d]
  }

  function Decimal(n: nat): string { if n < 10 then [Digit(n)] else Decimal(n / 10) + [Digit(n % 10)] }

  function Join(args: seq<string>): string {
    if args == [] then "" else if |args| == 1 then args[0] else args[0] + " " + Join(args[1..])
  }

  const EXEC: string := "exec "

  function TempName(k: nat, args: seq<string>): string { EXEC + Decimal(k) + " (" + Join(args) + ")" }

  function Value(s: string): nat
    requires forall i :: 0 <= i < |s| ==> '0' <= s[i] <= '9'
  {
    if s == [] then 0 else Value(s[..|s| - 1]) * 10 + (s[|s| - 1] as int - '0' as int)
  }

  lemma {:induction false} DecimalReads(n: nat)
    ensures forall i :: 0 <= i < |Decimal(n)| ==> '0' <= Decimal(n)[i] <= '9'
    ensures Value(Decimal(n)) == n
  {
    if n >= 10 {
      DecimalReads(n / 10);
      assert Decimal(n)[..|Decimal(n)| - 1] == Decimal(n / 10);
    } else {
      assert [Digit(n)][..0] == [];
    }
  }

  lemma {:induction false} SplitAtBlank(a: string, b: string, x: string, y: string)
    requires ' ' !in a && ' ' !in b && a + [' '] + x == b + [' '] + y
    ensures a == b
  {
    var s, t := a + [' '] + x, b + [' '] + y;
    assert s[|a|] == ' ' && t[|b|] == ' ';
    assert s[..|a|] == a && t[..|b|] == b;
    assert forall i :: 0 <= i < |a| ==> s[i] != ' ' && a[i] == s[i];
    assert forall i :: 0 <= i < |b| ==> t[i] != ' ' && b[i] == t[i];
  }

  lemma TempNameSplits(k: nat, args: seq<string>)
    ensures TempName(k, args)[|EXEC|..] == Decimal(k) + [' '] + ("(" + Join(args) + ")")
  {
  }

  /** Two made-up names with different counters differ, whatever the commands are. */
  lemma TempNamesDiffer(j: nat, k: nat, x: seq<string>, y: seq<string>)
    requires TempName(j, x) == TempName(k, y)
    ensures j == k
  {
    TempNameSplits(j, x);
    TempNameSplits(k, y);
    DecimalReads(j);
    DecimalReads(k);
    SplitAtBlank(Decimal(j), Decimal(k), "(" + Join(x) + ")", "(" + Join(y) + ")");
  }

  /** A made-up name is never a name that a configuration file can give to a service. */
  lemma TempNameIsNotValid(k: nat, args: seq<string>)
    ensures !ValidName(TempName(k, args))
  {
  }
}

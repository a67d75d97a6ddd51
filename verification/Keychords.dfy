/** Key chords: the bit mask of keys that are down, word by word as it is stored, and the handler that runs
    once for each time all keys of a chord come to be down. */
module Keychords {

  // ------------------------------------------------------------------ words

  /** A word of the mask, as its 32 bits, lowest first. */
  type Word = w: seq<bool> | |w| == 32 witness seq(32, i => false)

  const ZERO: Word := seq(32, i => false)

  function AndWord(a: Word, b: Word): Word { seq(32, i requires 0 <= i < 32 => a[i] && b[i]) }

  function OrWord(a: Word, b: Word): Word { seq(32, i requires 0 <= i < 32 => a[i] || b[i]) }

  // ------------------------------------------------------------------ masks

  /** The set of codes a list of words stands for. */
  predicate Test(bits: seq<Word>, code: nat) { code / 32 < |bits| && bits[code / 32][code % 32] }

  predicate Fits(bits: seq<Word>, code: nat) { code / 32 < |bits| }

  lemma SameWord(a: nat, b: nat)
    ensures a / 32 == b / 32 && a % 32 == b % 32 ==> a == b
  {
  }

  class Mask {
    var bits: seq<Word>

    /** `Mask(bit)`: the number is taken for bytes, so there are eight times as many words as bits need. */
    constructor (bit: nat)
      ensures |bits| == (bit + 3) / 4 && forall i :: 0 <= i < |bits| ==> bits[i] == ZERO
    {
      bits := seq((bit + 3) / 4, i => ZERO);
    }

    /** Codes beyond the mask are ignored. */
    method SetBit(code: nat, value: bool)
      modifies this
      ensures |bits| == |old(bits)|
      ensures forall c: nat :: Test(bits, c) <==> if c == code && Fits(bits, code) then value else Test(old(bits), c)
    {
      var idx := code / 32;
      if idx >= |bits| { return; }
      bits := bits[idx := bits[idx][code % 32 := value]];
      forall c: nat ensures Test(bits, c) <==> if c == code && Fits(bits, code) then value else Test(old(bits), c) {
        SameWord(c, code);
      }
    }

    /** The code must be within the mask: the source does not check. */
    method GetBit(code: nat) returns (set_: bool)
      requires Fits(bits, code)
      ensures set_ <==> Test(bits, code)
    {
      set_ := bits[code / 32][code % 32];
    }

    method Size() returns (n: nat)
      ensures n == 32 * |bits|
    {
      n := |bits| * 4 * 8;
    }

    /** Room for the code; nothing is set by that, and the mask never shrinks. */
    method Resize(code: nat)
      modifies this
      ensures Fits(bits, code) && |bits| >= |old(bits)| && |bits| <= (if code / 32 < |old(bits)| then |old(bits)| else code / 32 + 1)
      ensures forall c: nat :: Test(bits, c) <==> Test(old(bits), c)
    {
      var idx := code / 32;
      if idx >= |bits| {
        bits := bits + seq(idx + 1 - |bits|, i => ZERO);
      }
    }

    method Nonzero() returns (any: bool)
      ensures any <==> exists c: nat :: Test(bits, c)
    {
      var i := 0;
      while i < |bits|
        invariant 0 <= i <= |bits| && forall j :: 0 <= j < i ==> bits[j] == ZERO
      {
        if bits[i] != ZERO {
          var k :| 0 <= k < 32 && bits[i][k];
          assert (32 * i + k) / 32 == i && (32 * i + k) % 32 == k;
          assert Test(bits, 32 * i + k);
          return true;
        }
        i := i + 1;
      }
      return false;
    }

    method And(other: Mask) returns (r: Mask)
      ensures fresh(r) && |r.bits| == if |bits| <= |other.bits| then |bits| else |other.bits|
      ensures forall c: nat :: Test(r.bits, c) <==> Test(bits, c) && Test(other.bits, c)
    {
      r := new Mask(0);
      var len := if |bits| <= |other.bits| then |bits| else |other.bits|;
      r.bits := seq(len, i requires 0 <= i < |this.bits| && i < |other.bits| reads this, other => AndWord(this.bits[i], other.bits[i]));
    }

    /** `|=` takes the length of its right operand: codes beyond that are dropped. */
    method OrAssign(other: Mask)
      requires other != this
      modifies this
      ensures |bits| == |other.bits|
      ensures forall c: nat :: Test(bits, c) <==> Fits(other.bits, c) && (Test(old(bits), c) || Test(other.bits, c))
    {
      var len := |other.bits|;
      var was := bits;
      bits := seq(len, i => if 0 <= i < |was| then was[i] else ZERO);
      var resized := bits;
      var i := 0;
      while i < len
        invariant 0 <= i <= len == |bits| == |resized| && other.bits == old(other.bits)
        invariant forall j :: 0 <= j < len ==> bits[j] == if j < i then OrWord(resized[j], other.bits[j]) else resized[j]
      {
        bits := bits[i := OrWord(bits[i], other.bits[i])];
        i := i + 1;
      }
    }
  }

  // ------------------------------------------------------------------ chords

  datatype Entry = Entry(codes: seq<nat>, notified: bool)

  predicate AllDown(codes: seq<nat>, bits: seq<Word>) { forall i :: 0 <= i < |codes| ==> Test(bits, codes[i]) }

  lemma AllDownIff(codes: seq<nat>, bits: seq<Word>)
    ensures AllDown(codes, bits) <==> forall c :: c in codes ==> Test(bits, c)
  {
  }

  /** All keys of the chord are down now and were not all down at the check before. */
  predicate Rises(codes: seq<nat>, checks: seq<seq<Word>>, bits: seq<Word>) {
    AllDown(codes, bits) && (checks == [] || !AllDown(codes, checks[|checks| - 1]))
  }

  /** How often that happened over a list of checks. */
  function Rising(codes: seq<nat>, checks: seq<seq<Word>>): nat {
    if checks == [] then 0
    else Rising(codes, checks[..|checks| - 1]) + if Rises(codes, checks[..|checks| - 1], checks[|checks| - 1]) then 1 else 0
  }

  lemma RisingOneMore(codes: seq<nat>, checks: seq<seq<Word>>, bits: seq<Word>)
    ensures Rising(codes, checks + [bits]) == Rising(codes, checks) + if Rises(codes, checks, bits) then 1 else 0
  {
    assert (checks + [bits])[..|checks + [bits]| - 1] == checks;
  }

  predicate InBounds(codes: seq<nat>, bits: seq<Word>) { forall i :: 0 <= i < |codes| ==> Fits(bits, codes[i]) }

  /** The chords that a check calls the handler with, in order. */
  function Fired(entries: seq<Entry>, bits: seq<Word>): seq<seq<nat>> {
    if entries == [] then []
    else
      var e := entries[|entries| - 1];
      Fired(entries[..|entries| - 1], bits) + if AllDown(e.codes, bits) && !e.notified then [e.codes] else []
  }

  ghost predicate Apart(entries: seq<Entry>) {
    forall i, j :: 0 <= i < j < |entries| ==> entries[i].codes != entries[j].codes
  }

  lemma {:induction false} FiredOnlyListed(entries: seq<Entry>, bits: seq<Word>, codes: seq<nat>)
    requires forall i :: 0 <= i < |entries| ==> entries[i].codes != codes
    ensures multiset(Fired(entries, bits))[codes] == 0
  {
    if entries != [] { FiredOnlyListed(entries[..|entries| - 1], bits, codes); }
  }

  lemma {:induction false} FiredOnce(entries: seq<Entry>, bits: seq<Word>, k: nat)
    requires Apart(entries) && k < |entries|
    ensures multiset(Fired(entries, bits))[entries[k].codes] == if AllDown(entries[k].codes, bits) && !entries[k].notified then 1 else 0
  {
    var front := entries[..|entries| - 1];
    if k == |front| {
      FiredOnlyListed(front, bits, entries[k].codes);
    } else {
      FiredOnce(front, bits, k);
      assert entries[|front|].codes != entries[k].codes;
    }
  }

  ghost predicate Registered(entries: seq<Entry>, code: nat) {
    exists k :: 0 <= k < |entries| && code in entries[k].codes
  }

  /** One more check adds a call for the chord exactly if it counts as one more rising. */
  lemma CountedOnce(entries: seq<Entry>, calls: seq<seq<nat>>, checks: seq<seq<Word>>, bits: seq<Word>, k: nat)
    requires Apart(entries) && k < |entries|
    requires entries[k].notified <==> checks != [] && AllDown(entries[k].codes, checks[|checks| - 1])
    ensures var codes := entries[k].codes;
            var rises := if Rises(codes, checks, bits) then 1 else 0;
            && multiset(calls + Fired(entries, bits))[codes] == multiset(calls)[codes] + rises
            && Rising(codes, checks + [bits]) == Rising(codes, checks) + rises
  {
    FiredOnce(entries, bits, k);
    assert multiset(calls + Fired(entries, bits)) == multiset(calls) + multiset(Fired(entries, bits));
    RisingOneMore(entries[k].codes, checks, bits);
  }

  class Chords {
    var entries: seq<Entry>
    const current: Mask
    /** The mask at each check made so far, and the chords the handler was called with. */
    ghost var checks: seq<seq<Word>>
    ghost var calls: seq<seq<nat>>

    constructor ()
      ensures Valid() && fresh(current) && entries == [] && checks == [] && calls == []
    {
      current := new Mask(0);
      entries, checks, calls := [], [], [];
    }

    /** A chord is marked exactly when it was all down at the last check, and the handler has been called
        with it exactly as often as it came to be all down. */
    ghost predicate Valid()
      reads this
    {
      && Apart(entries)
      && (forall k :: 0 <= k < |entries| ==>
            && (entries[k].notified <==> checks != [] && AllDown(entries[k].codes, checks[|checks| - 1]))
            && multiset(calls)[entries[k].codes] == Rising(entries[k].codes, checks))
    }

    ghost predicate Bounded()
      reads this, current
    {
      forall k :: 0 <= k < |entries| ==> InBounds(entries[k].codes, current.bits)
    }

    /** Chords are registered before the devices are opened; the same chord is registered once. */
    method Register(codes: seq<nat>)
      requires Valid() && checks == [] && calls == []
      modifies this`entries
      ensures Valid() && checks == [] && calls == []
      ensures var known := exists k :: 0 <= k < |old(entries)| && old(entries)[k].codes == codes;
              entries == if codes == [] || known then old(entries) else old(entries) + [Entry(codes, false)]
    {
      if codes == [] { return; }
      var i := 0;
      while i < |entries|
        invariant 0 <= i <= |entries| && forall j :: 0 <= j < i ==> entries[j].codes != codes
      {
        if entries[i].codes == codes { return; }
        i := i + 1;
      }
      entries := entries + [Entry(codes, false)];
    }

    method IsDown(codes: seq<nat>) returns (down: bool)
      requires InBounds(codes, current.bits)
      ensures down <==> AllDown(codes, current.bits)
    {
      var i := 0;
      while i < |codes|
        invariant 0 <= i <= |codes| && forall j :: 0 <= j < i ==> Test(current.bits, codes[j])
      {
        var set_ := current.GetBit(codes[i]);
        if !set_ { return false; }
        i := i + 1;
      }
      return true;
    }

    /** A check: the handler runs for the chords all of whose keys are down and were not at the last check. */
    method LambdaCheck()
      requires Valid() && Bounded()
      modifies this
      ensures Valid() && Bounded() && checks == old(checks) + [current.bits]
      ensures |entries| == |old(entries)|
      ensures forall k :: 0 <= k < |entries| ==>
                && entries[k].codes == old(entries)[k].codes
                && multiset(calls)[entries[k].codes] ==
                     multiset(old(calls))[entries[k].codes] + if Rises(entries[k].codes, old(checks), current.bits) then 1 else 0
    {
      ghost var was, bits, called := entries, current.bits, calls;
      RunHandlers();
      checks := checks + [bits];
      forall k | 0 <= k < |was|
        ensures multiset(calls)[was[k].codes] == multiset(called)[was[k].codes] + if Rises(was[k].codes, old(checks), bits) then 1 else 0
        ensures Rising(was[k].codes, checks) == Rising(was[k].codes, old(checks)) + if Rises(was[k].codes, old(checks), bits) then 1 else 0
      {
        CountedOnce(was, called, old(checks), bits, k);
      }
    }

    method RunHandlers()
      requires Bounded()
      modifies this`entries, this`calls
      ensures |entries| == |old(entries)|
      ensures forall k :: 0 <= k < |entries| ==> entries[k] == Entry(old(entries)[k].codes, AllDown(old(entries)[k].codes, current.bits))
      ensures calls == old(calls) + Fired(old(entries), current.bits)
    {
      ghost var was := entries;
      var k := 0;
      while k < |entries|
        invariant 0 <= k <= |entries| == |was|
        invariant forall j :: 0 <= j < |was| ==>
                    entries[j] == if j < k then Entry(was[j].codes, AllDown(was[j].codes, current.bits)) else was[j]
        invariant calls == old(calls) + Fired(was[..k], current.bits)
      {
        assert was[..k + 1][..k] == was[..k];
        var e := entries[k];
        var found := IsDown(e.codes);
        if found && !e.notified { calls := calls + [e.codes]; }
        entries := entries[k := Entry(e.codes, found)];
        k := k + 1;
      }
      assert was[..k] == was;
    }

    /** A key event from a device: the handler runs for exactly those chords all of whose keys are down by it
        and were not all down at the check before. */
    method LambdaHandler(code: nat, value: bool)
      requires Valid() && Bounded()
      modifies this, current
      ensures Valid() && Bounded() && checks == old(checks) + [current.bits] && |entries| == |old(entries)|
      ensures forall k :: 0 <= k < |entries| ==>
                && entries[k].codes == old(entries)[k].codes
                && multiset(calls)[entries[k].codes] ==
                     multiset(old(calls))[entries[k].codes]
                     + (if (forall c :: c in entries[k].codes ==> Test(current.bits, c))
                           && (old(checks) == [] || exists c :: c in entries[k].codes && !Test(old(checks)[|old(checks)| - 1], c)) then 1 else 0)
      ensures forall c: nat :: Test(current.bits, c) <==> if c == code && Fits(current.bits, code) then value else Test(old(current.bits), c)
    {
      current.SetBit(code, value);
      LambdaCheck();
      forall k | 0 <= k < |entries|
        ensures Rises(entries[k].codes, old(checks), current.bits) <==>
                  && (forall c :: c in entries[k].codes ==> Test(current.bits, c))
                  && (old(checks) == [] || exists c :: c in entries[k].codes && !Test(old(checks)[|old(checks)| - 1], c))
      {
        AllDownIff(entries[k].codes, current.bits);
        if old(checks) != [] { AllDownIff(entries[k].codes, old(checks)[|old(checks)| - 1]); }
      }
    }

    /** The mask of all registered codes, grown as needed. */
    method BuildMask() returns (mask: Mask)
      ensures fresh(mask)
      ensures forall k :: 0 <= k < |entries| ==> InBounds(entries[k].codes, mask.bits)
      ensures forall c: nat :: Test(mask.bits, c) <==> Registered(entries, c)
    {
      mask := new Mask(0);
      var k := 0;
      while k < |entries|
        invariant 0 <= k <= |entries| && fresh(mask)
        invariant forall j :: 0 <= j < k ==> InBounds(entries[j].codes, mask.bits)
        invariant forall c: nat :: Test(mask.bits, c) <==> exists j :: 0 <= j < k && c in entries[j].codes
      {
        AddCodes(mask, entries[k].codes);
        k := k + 1;
      }
    }

    method AddCodes(mask: Mask, codes: seq<nat>)
      modifies mask
      ensures |mask.bits| >= |old(mask.bits)| && InBounds(codes, mask.bits)
      ensures forall c: nat :: Test(mask.bits, c) <==> Test(old(mask.bits), c) || c in codes
    {
      var i := 0;
      while i < |codes|
        invariant 0 <= i <= |codes| && |mask.bits| >= |old(mask.bits)|
        invariant forall j :: 0 <= j < i ==> Fits(mask.bits, codes[j])
        invariant forall c: nat :: Test(mask.bits, c) <==> Test(old(mask.bits), c) || c in codes[..i]
      {
        mask.Resize(codes[i]);
        mask.SetBit(codes[i], true);
        assert codes[..i + 1] == codes[..i] + [codes[i]];
        i := i + 1;
      }
      assert codes[..i] == codes;
    }

    /** What a device reports, read into a mask of the given size. */
    method Query(size: nat, words: nat -> Word) returns (m: Mask)
      ensures fresh(m) && |m.bits| == (size + 3) / 4
      ensures forall c: nat :: Fits(m.bits, c) ==> (Test(m.bits, c) <==> words(c / 32)[c % 32])
    {
      m := new Mask(size);
      m.bits := seq(|m.bits|, i requires i >= 0 => words(i));
    }

    /** Opening a device: `hasVersion`, `hasBits` and `hasKeys` are the results of the three queries,
        `available` and `pressed` the words the last two return, and `handled` tells whether its events can be
        listened to. The device is used exactly if it has a registered key. Whatever it answers, every later
        lookup of a registered code is in bounds, and no key that was down is forgotten. */
    method GeteventEnable(
      hasVersion: bool, hasBits: bool, hasKeys: bool, available: nat -> Word, pressed: nat -> Word, handled: bool)
      returns (ok: bool, ghost used: bool)
      requires Valid()
      modifies this, current
      ensures used <==> hasVersion && hasBits && exists c: nat :: Registered(old(entries), c) && available(c / 32)[c % 32]
      ensures ok <==> used && handled
      ensures Valid() && (hasVersion ==> Bounded()) && |entries| == |old(entries)|
      ensures forall k :: 0 <= k < |entries| ==> entries[k].codes == old(entries)[k].codes
      ensures forall c: nat :: Registered(old(entries), c) ==>
                (Test(current.bits, c) <==> Test(old(current.bits), c) || (used && hasKeys && available(c / 32)[c % 32] && pressed(c / 32)[c % 32]))
      ensures checks == if used && hasKeys then old(checks) + [current.bits] else old(checks)
    {
      ok, used := false, false;
      if !hasVersion { return; }
      var mask := BuildMask();
      var size := mask.Size();
      current.Resize(size);
      assert Bounded();
      if !hasBits { return; }
      var avail, any := Offered(mask, size, available);
      if !any { return; }
      used := true;
      var down := Query(size, pressed);
      assert |avail.bits| == |down.bits| == 8 * |mask.bits|;
      if hasKeys { Merge(mask, avail, down); }
      ok := handled;
    }

    /** The keys a device has, and whether a registered one is among them. */
    method Offered(mask: Mask, size: nat, available: nat -> Word) returns (avail: Mask, any: bool)
      requires size == 32 * |mask.bits|
      ensures fresh(avail) && |avail.bits| == 8 * |mask.bits|
      ensures forall c: nat :: Fits(avail.bits, c) ==> (Test(avail.bits, c) <==> available(c / 32)[c % 32])
      ensures any <==> exists c: nat :: Test(mask.bits, c) && available(c / 32)[c % 32]
    {
      avail := Query(size, available);
      var both := avail.And(mask);
      assert forall c: nat :: Test(both.bits, c) <==> Test(mask.bits, c) && available(c / 32)[c % 32];
      any := both.Nonzero();
    }

    /** `current_ |= mask & available & set`, and the check after it. */
    method Merge(mask: Mask, avail: Mask, down: Mask)
      requires Valid() && current !in {mask, avail, down} && |mask.bits| <= |avail.bits| && |mask.bits| <= |down.bits|
      requires forall k :: 0 <= k < |entries| ==> InBounds(entries[k].codes, mask.bits)
      modifies this, current
      ensures Valid() && Bounded() && |entries| == |old(entries)| && checks == old(checks) + [current.bits]
      ensures forall k :: 0 <= k < |entries| ==> entries[k].codes == old(entries[k]).codes
      ensures forall c: nat :: Test(current.bits, c) <==>
                Fits(mask.bits, c) && (Test(old(current.bits), c) || (Test(mask.bits, c) && Test(avail.bits, c) && Test(down.bits, c)))
    {
      var m := mask.And(avail);
      m := m.And(down);
      current.OrAssign(m);
      LambdaCheck();
    }
  }
}

/** The rendezvous names that clients connect to and servers bind:
    `\\.\pipe\<dir>_jack_<which>` and `\\.\pipe\<dir>_jack_<name>_<which>`,
    as the `sprintf` calls in `Connect` and `Bind` render them. */
module PipeName {
  import opened Win32

  datatype Option<T> = None | Some(value: T)

  /** The local-machine pipe namespace, `\\.\pipe\`. */
  const PipePrefix: string := "\\\\.\\pipe\\"

  predicate IsDigit(c: char) { '0' <= c <= '9' }

  predicate AllDigits(s: string) { forall i :: 0 <= i < |s| ==> IsDigit(s[i]) }

  function DigitChar(d: nat): (c: char)
    requires d < 10
    ensures IsDigit(c) && c as int - '0' as int == d
  {
    ('0' as int + d) as char
  }

  /** The decimal digits of `n`, most significant first. */
  function NatDigits(n: nat): (r: string)
    ensures r != [] && AllDigits(r)
    decreases n
  {
    if n < 10 then [DigitChar(n)] else NatDigits(n / 10) + [DigitChar(n % 10)]
  }

  /** The number a string of decimal digits denotes. */
  function NatValue(s: string): nat
    requires AllDigits(s)
  {
    if s == [] then 0 else 10 * NatValue(s[..|s| - 1]) + (s[|s| - 1] as int - '0' as int)
  }

  lemma {:induction false} NatValueOfDigits(n: nat)
    ensures NatValue(NatDigits(n)) == n
    decreases n
  {
    if n >= 10 {
      var s := NatDigits(n);
      assert s[..|s| - 1] == NatDigits(n / 10);
      NatValueOfDigits(n / 10);
    }
  }

  /** `%d`: an optional minus sign followed by the digits of the magnitude. */
  function Decimal(n: int): (r: string)
    ensures r != [] && '_' !in r
  {
    var digits := NatDigits(if n < 0 then -n else n);
    assert forall i :: 0 <= i < |digits| ==> digits[i] != '_';
    if n < 0 then "-" + digits else digits
  }

  /** Reads back what `Decimal` writes. */
  function ParseDecimal(s: string): Option<int>
  {
    if |s| > 1 && s[0] == '-' && AllDigits(s[1..]) then Some(0 - NatValue(s[1..]))
    else if s != [] && AllDigits(s) then Some(NatValue(s))
    else None
  }

  lemma DecimalRoundTrip(n: int)
    ensures ParseDecimal(Decimal(n)) == Some(n)
  {
    if n < 0 {
      NatValueOfDigits(-n);
      assert Decimal(n)[1..] == NatDigits(-n);
    } else {
      NatValueOfDigits(n);
    }
  }

  /** The characters after the last `_` of `s` (all of `s` if it has none). */
  function LastField(s: string): (r: string)
    ensures '_' !in r
    ensures |r| <= |s| && r == s[|s| - |r|..]
    decreases |s|
  {
    if s == [] || s[|s| - 1] == '_' then []
    else LastField(s[..|s| - 1]) + [s[|s| - 1]]
  }

  lemma {:induction false} LastFieldAfterSeparator(head: string, tail: string)
    requires head != [] && head[|head| - 1] == '_' && '_' !in tail
    ensures LastField(head + tail) == tail
    decreases |tail|
  {
    var s := head + tail;
    if tail == [] {
      assert s == head;
    } else {
      var front := tail[..|tail| - 1];
      assert s[..|s| - 1] == head + front;
      assert '_' !in front by {
        forall i | 0 <= i < |front| ensures front[i] != '_' { assert front[i] == tail[i]; }
      }
      LastFieldAfterSeparator(head, front);
      assert tail == front + [tail[|tail| - 1]];
    }
  }

  /** The slot index a pipe name ends with, if it ends with one. */
  function SlotOf(name: string): Option<int>
  {
    ParseDecimal(LastField(name))
  }

  /** A name whose last `_` is followed by a rendered slot gives that slot back. */
  lemma SlotAfterSeparator(head: string, which: int32)
    requires head != [] && head[|head| - 1] == '_'
    ensures SlotOf(head + Decimal(which as int)) == Some(which as int)
  {
    LastFieldAfterSeparator(head, Decimal(which as int));
    DecimalRoundTrip(which as int);
  }

  lemma ExtendKeepsPrefix(s: string, t: string)
    requires |PipePrefix| <= |s| && s[..|PipePrefix|] == PipePrefix
    ensures (s + t)[..|PipePrefix|] == PipePrefix
  {
    assert (s + t)[..|PipePrefix|] == s[..|PipePrefix|];
  }

  /** The two-part name, `\\.\pipe\<dir>_jack_<which>`. */
  function TwoPartName(dir: string, which: int32): (r: string)
    ensures |PipePrefix| < |r| && r[..|PipePrefix|] == PipePrefix
    ensures SlotOf(r) == Some(which as int)
  {
    SlotAfterSeparator(PipePrefix + dir + "_jack_", which);
    ExtendKeepsPrefix(PipePrefix, dir);
    ExtendKeepsPrefix(PipePrefix + dir, "_jack_");
    ExtendKeepsPrefix(PipePrefix + dir + "_jack_", Decimal(which as int));
    PipePrefix + dir + "_jack_" + Decimal(which as int)
  }

  /** The three-part name, `\\.\pipe\<dir>_jack_<name>_<which>`. */
  function ThreePartName(dir: string, name: string, which: int32): (r: string)
    ensures |PipePrefix| < |r| && r[..|PipePrefix|] == PipePrefix
    ensures SlotOf(r) == Some(which as int)
  {
    SlotAfterSeparator(PipePrefix + dir + "_jack_" + name + "_", which);
    ExtendKeepsPrefix(PipePrefix, dir);
    ExtendKeepsPrefix(PipePrefix + dir, "_jack_");
    ExtendKeepsPrefix(PipePrefix + dir + "_jack_", name);
    ExtendKeepsPrefix(PipePrefix + dir + "_jack_" + name, "_");
    ExtendKeepsPrefix(PipePrefix + dir + "_jack_" + name + "_", Decimal(which as int));
    PipePrefix + dir + "_jack_" + name + "_" + Decimal(which as int)
  }

  /** Distinct slots of one directory tag never share a two-part name, and
      distinct tags of one slot never do either. */
  lemma TwoPartNameInjective(dir1: string, which1: int32, dir2: string, which2: int32)
    requires TwoPartName(dir1, which1) == TwoPartName(dir2, which2)
    ensures dir1 == dir2 && which1 == which2
  {
    var n := TwoPartName(dir1, which1);
    assert which1 == which2;
    var digits := Decimal(which1 as int);
    var x1, x2 := PipePrefix + dir1 + "_jack_", PipePrefix + dir2 + "_jack_";
    assert x1 == n[..|n| - |digits|] == x2;
    assert PipePrefix + dir1 == x1[..|x1| - 6] && PipePrefix + dir2 == x2[..|x2| - 6];
    assert dir1 == (PipePrefix + dir1)[|PipePrefix|..];
    assert dir2 == (PipePrefix + dir2)[|PipePrefix|..];
  }

  /** Distinct slots under one tag and logical name never share a three-part name. */
  lemma ThreePartNameSlotsDistinct(dir: string, name: string, which1: int32, which2: int32)
    requires which1 != which2
    ensures ThreePartName(dir, name, which1) != ThreePartName(dir, name, which2)
  {
    assert SlotOf(ThreePartName(dir, name, which1)) != SlotOf(ThreePartName(dir, name, which2));
  }

  /** The three-part form does not keep tag and logical name apart: a `_jack_`
      inside either one lets two different pairs render to the same pipe name. */
  lemma ThreePartNameCollides(dir: string, mid: string, name: string, which: int32)
    ensures (dir + "_jack_" + mid, name) != (dir, mid + "_jack_" + name)
    ensures ThreePartName(dir + "_jack_" + mid, name, which) == ThreePartName(dir, mid + "_jack_" + name, which)
  {
    var j := "_jack_";
    var left := PipePrefix + (dir + j + mid) + j + name;
    var right := PipePrefix + dir + j + (mid + j + name);
    assert PipePrefix + (dir + j + mid) == PipePrefix + dir + j + mid;
    assert PipePrefix + dir + j + (mid + j + name) == PipePrefix + dir + j + mid + j + name;
    assert left == right;
  }
}

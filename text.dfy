/**
 * String helpers the bot's formatting relies on: Python's `str(n)` for
 * integers, `f"{n:02d}"`, `"sep".join(...)`, and the inverses used to state
 * what the formatted text means (a decimal parser and a splitter).
 */
module Text {
  import opened Wrappers

  predicate IsDigit(c: char) {
    '0' <= c <= '9'
  }

  predicate AllDigits(s: string) {
    forall i :: 0 <= i < |s| ==> IsDigit(s[i])
  }

  function DigitChar(d: nat): (c: char)
    requires d < 10
    ensures IsDigit(c)
  {
    ('0' as int + d) as char
  }

  function DigitValue(c: char): (d: nat)
    requires IsDigit(c)
    ensures d < 10
  {
    c as int - '0' as int
  }

  /** Decimal rendering of a natural number, no leading zeros (Python's `str(n)`). */
  function Digits(n: nat): (s: string)
    ensures |s| >= 1 && AllDigits(s)
    ensures (|s| == 1) == (n < 10)
    decreases n
  {
    if n < 10 then [DigitChar(n)] else Digits(n / 10) + [DigitChar(n % 10)]
  }

  /** Python's `str(i)` for an integer of either sign. */
  function IntToString(i: int): (s: string)
  {
    if i < 0 then "-" + Digits(-i) else Digits(i)
  }

  /** `f"{n:02d}"`: at least two digits, zero-padded on the left. */
  function Pad2(n: nat): (s: string)
  {
    if n < 10 then ['0'] + Digits(n) else Digits(n)
  }

  /** The value of a string of decimal digits, leading zeros allowed. */
  function ValueOf(s: string): nat
    requires AllDigits(s)
  {
    if s == [] then 0 else 10 * ValueOf(s[..|s| - 1]) + DigitValue(s[|s| - 1])
  }

  /** Reads a non-empty run of decimal digits; anything else is rejected. */
  function ParseNat(s: string): Option<nat>
  {
    if s != [] && AllDigits(s) then Some(ValueOf(s)) else None
  }

  /** Reads an optional minus sign followed by decimal digits. */
  function ParseInt(s: string): Option<int>
  {
    if s != [] && s[0] == '-' then
      match ParseNat(s[1..])
      case Some(n) => Some(-(n as int))
      case None => None
    else
      match ParseNat(s)
      case Some(n) => Some(n)
      case None => None
  }

  lemma {:induction false} DigitsRoundTrip(n: nat)
    ensures ParseNat(Digits(n)) == Some(n)
  {
    if n < 10 {
      assert Digits(n)[..0] == [];
      assert DigitValue(DigitChar(n)) == n;
      assert ValueOf(Digits(n)) == 10 * ValueOf([]) + n;
    } else {
      DigitsRoundTrip(n / 10);
      var s := Digits(n);
      assert s[..|s| - 1] == Digits(n / 10);
    }
  }

  lemma IntRoundTrip(i: int)
    ensures ParseInt(IntToString(i)) == Some(i)
  {
    var s := IntToString(i);
    if i < 0 {
      DigitsRoundTrip(-i);
      assert s[0] == '-' && s[1..] == Digits(-i);
      assert ParseNat(s[1..]) == Some(-i);
    } else {
      DigitsRoundTrip(i);
      assert s == Digits(i) && IsDigit(s[0]) && s[0] != '-';
      assert ParseNat(s) == Some(i);
    }
  }

  /** Distinct integers print differently, so `str(g)` keys never collide. */
  lemma IntToStringInjective(a: int, b: int)
    ensures IntToString(a) == IntToString(b) ==> a == b
  {
    IntRoundTrip(a);
    IntRoundTrip(b);
  }

  /**
   * `:02d` pads with one zero below ten and not at all from ten on, so every
   * number under a hundred prints as exactly two digits; the digits read back
   * as the number.
   */
  lemma Pad2Reads(n: nat)
    ensures |Pad2(n)| == (if n < 10 then 2 else |Digits(n)|)
    ensures n < 100 ==> |Pad2(n)| == 2
    ensures |Pad2(n)| >= 2 && AllDigits(Pad2(n))
    ensures ParseNat(Pad2(n)) == Some(n)
  {
    DigitsRoundTrip(n);
    if n < 10 {
      var s := Pad2(n);
      assert s[..|s| - 1] == ['0'];
      assert ValueOf(['0']) == 0 by {
        assert ['0'][..0] == [];
      }
    }
  }

  /** Python's `s.split(sep)`: the pieces between separators, always at least one. */
  function Split(s: string, sep: char): (r: seq<string>)
    ensures |r| >= 1
  {
    if s == [] then [""]
    else
      var rest := Split(s[1..], sep);
      if s[0] == sep then [""] + rest else [[s[0]] + rest[0]] + rest[1..]
  }

  lemma {:induction false} SplitNoSep(a: string, sep: char)
    requires sep !in a
    ensures Split(a, sep) == [a]
  {
    if a != [] {
      SplitNoSep(a[1..], sep);
      assert [a[0]] + a[1..] == a;
    }
  }

  lemma {:induction false} SplitAfter(a: string, sep: char, b: string)
    requires sep !in a
    ensures Split(a + [sep] + b, sep) == [a] + Split(b, sep)
  {
    if a == [] {
      assert (a + [sep] + b)[1..] == b;
    } else {
      SplitAfter(a[1..], sep, b);
      assert (a + [sep] + b)[1..] == a[1..] + [sep] + b;
      assert [a[0]] + a[1..] == a;
    }
  }

  /** `sep.join(lines)`. */
  function Join(lines: seq<string>, sep: char): string
  {
    if lines == [] then ""
    else if |lines| == 1 then lines[0]
    else lines[0] + [sep] + Join(lines[1..], sep)
  }

  predicate NoneContain(lines: seq<string>, c: char) {
    forall i :: 0 <= i < |lines| ==> c !in lines[i]
  }

  lemma {:induction false} SplitJoin(lines: seq<string>, sep: char)
    requires lines != [] && NoneContain(lines, sep)
    ensures Split(Join(lines, sep), sep) == lines
  {
    if |lines| == 1 {
      SplitNoSep(lines[0], sep);
    } else {
      SplitJoin(lines[1..], sep);
      SplitAfter(lines[0], sep, Join(lines[1..], sep));
      assert [lines[0]] + lines[1..] == lines;
    }
  }

  /** Each line followed by `sep`, as a loop that appends `line + "\n"` builds it. */
  function Terminated(lines: seq<string>, sep: char): string
  {
    if lines == [] then "" else lines[0] + [sep] + Terminated(lines[1..], sep)
  }

  lemma {:induction false} TerminatedSnoc(lines: seq<string>, line: string, sep: char)
    ensures Terminated(lines + [line], sep) == Terminated(lines, sep) + line + [sep]
  {
    if lines != [] {
      TerminatedSnoc(lines[1..], line, sep);
      assert (lines + [line])[1..] == lines[1..] + [line];
    } else {
      assert [line][1..] == [];
    }
  }

  lemma {:induction false} SplitTerminated(lines: seq<string>, sep: char, tail: string)
    requires NoneContain(lines, sep) && sep !in tail
    ensures Split(Terminated(lines, sep) + tail, sep) == lines + [tail]
  {
    if lines == [] {
      SplitNoSep(tail, sep);
      assert Terminated(lines, sep) + tail == tail;
    } else {
      SplitTerminated(lines[1..], sep, tail);
      assert Terminated(lines, sep) + tail == lines[0] + [sep] + (Terminated(lines[1..], sep) + tail);
      SplitAfter(lines[0], sep, Terminated(lines[1..], sep) + tail);
      assert [lines[0]] + lines[1..] == lines;
    }
  }

  /** The strings of `parts` one after another, built from the back as a loop appends. */
  function Concat(parts: seq<string>): string
  {
    if parts == [] then "" else Concat(parts[..|parts| - 1]) + parts[|parts| - 1]
  }

  function Min(a: int, b: int): int {
    if a <= b then a else b
  }
}

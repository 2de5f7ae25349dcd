/** The pieces of Python's `str` behaviour the modelled code relies on:
    `lower()`, `split(sep)`, `endswith`, `ljust`, `strip(chars)`, and the
    decimal conversions `str(int)` and `int(str)`. */
module Text {
  import opened Wrappers

  // ---------------------------------------------------------------------
  // Characters

  predicate IsDigit(c: char) { '0' <= c <= '9' }

  function DigitChar(d: nat): (c: char)
    requires d < 10
    ensures IsDigit(c)
  {
    (('0' as int) + d) as char
  }

  function DigitValue(c: char): nat
    requires IsDigit(c)
  {
    c as int - '0' as int
  }

  /** ASCII case folding, the part of `str.lower()` the modelled keys use. */
  function LowerChar(c: char): char
  {
    if 'A' <= c <= 'Z' then (c as int + 32) as char else c
  }

  function Lower(s: string): string
  {
    seq(|s|, i requires 0 <= i < |s| => LowerChar(s[i]))
  }

  /** Lower-casing twice is lower-casing once. */
  lemma LowerIdempotent(s: string)
    ensures Lower(Lower(s)) == Lower(s)
  {
    assert forall i :: 0 <= i < |s| ==> Lower(Lower(s))[i] == Lower(s)[i];
  }

  // ---------------------------------------------------------------------
  // str.split(sep): every occurrence of `sep` separates two pieces, so a
  // string with n separators gives n + 1 pieces, some of them empty.

  function Split(s: string, sep: char): (parts: seq<string>)
    ensures |parts| >= 1
    decreases |s|
  {
    if |s| == 0 then [""]
    else
      var rest := Split(s[1..], sep);
      if s[0] == sep then [""] + rest
      else [[s[0]] + rest[0]] + rest[1..]
  }

  /** `sep.join(parts)`, the inverse of Split. */
  function Join(parts: seq<string>, sep: char): string
    requires |parts| >= 1
    decreases |parts|
  {
    if |parts| == 1 then parts[0] else parts[0] + [sep] + Join(parts[1..], sep)
  }

  function Count(s: string, c: char): nat
    decreases |s|
  {
    if |s| == 0 then 0 else (if s[0] == c then 1 else 0) + Count(s[1..], c)
  }

  /** Splitting loses nothing: joining the pieces back gives the input. */
  lemma {:induction false} JoinSplit(s: string, sep: char)
    ensures Join(Split(s, sep), sep) == s
    decreases |s|
  {
    if |s| > 0 {
      var rest := Split(s[1..], sep);
      JoinSplit(s[1..], sep);
      if s[0] == sep {
        assert Split(s, sep) == [""] + rest;
        assert (([""] + rest)[1..]) == rest;
      } else {
        var parts := Split(s, sep);
        assert parts == [[s[0]] + rest[0]] + rest[1..];
        if |rest| == 1 {
          assert Join(parts, sep) == [s[0]] + rest[0];
          assert rest[0] == s[1..];
        } else {
          assert parts[1..] == rest[1..];
          assert Join(rest, sep) == rest[0] + [sep] + Join(rest[1..], sep);
        }
      }
    }
  }

  /** No piece contains the separator. */
  lemma {:induction false} SplitPiecesFree(s: string, sep: char)
    ensures forall i :: 0 <= i < |Split(s, sep)| ==> sep !in Split(s, sep)[i]
    decreases |s|
  {
    if |s| > 0 {
      SplitPiecesFree(s[1..], sep);
      var rest := Split(s[1..], sep);
      if s[0] != sep {
        var parts := Split(s, sep);
        forall i | 0 <= i < |parts| ensures sep !in parts[i] {
          if i == 0 {
            assert parts[0] == [s[0]] + rest[0];
          } else {
            assert parts[i] == rest[i];
          }
        }
      }
    }
  }

  /** A string splits into exactly one piece more than it has separators. */
  lemma {:induction false} SplitLength(s: string, sep: char)
    ensures |Split(s, sep)| == Count(s, sep) + 1
    decreases |s|
  {
    if |s| > 0 {
      SplitLength(s[1..], sep);
    }
  }

  // ---------------------------------------------------------------------
  // endswith, ljust, strip

  predicate EndsWith(s: string, suffix: string)
  {
    |suffix| <= |s| && s[|s| - |suffix|..] == suffix
  }

  function Spaces(n: nat): string
  {
    seq(n, _ => ' ')
  }

  /** `s.ljust(width)`: pad on the right with spaces up to `width`; never truncate. */
  function LJust(s: string, width: int): string
  {
    if width > |s| then s + Spaces(width - |s|) else s
  }

  function TrimLeft(s: string, chars: set<char>): string
    decreases |s|
  {
    if |s| > 0 && s[0] in chars then TrimLeft(s[1..], chars) else s
  }

  function TrimRight(s: string, chars: set<char>): string
    decreases |s|
  {
    if |s| > 0 && s[|s| - 1] in chars then TrimRight(s[..|s| - 1], chars) else s
  }

  /** `s.strip(chars)`: drop leading and trailing characters drawn from `chars`. */
  function Strip(s: string, chars: set<char>): string
  {
    TrimRight(TrimLeft(s, chars), chars)
  }

  /** A string whose two ends are outside `chars` is left alone by Strip. */
  lemma StripUntouched(s: string, chars: set<char>)
    requires |s| > 0 ==> s[0] !in chars && s[|s| - 1] !in chars
    ensures Strip(s, chars) == s
  {
  }

  /** Strip removes one wrapping character from each end of a string whose
      inside does not start or end with it. */
  lemma StripWrapped(inner: string, c: char)
    requires |inner| > 0 ==> inner[0] != c && inner[|inner| - 1] != c
    ensures Strip([c] + inner + [c], {c}) == inner
  {
    var s := [c] + inner + [c];
    assert s[1..] == inner + [c];
    assert TrimLeft(s, {c}) == TrimLeft(inner + [c], {c});
    if |inner| > 0 {
      assert TrimLeft(inner + [c], {c}) == inner + [c];
    } else {
      assert inner + [c] == [c];
      assert TrimLeft([c], {c}) == TrimLeft([], {c});
    }
    assert (inner + [c])[..|inner|] == inner;
  }

  // ---------------------------------------------------------------------
  // str(int) and int(str)

  /** The characters `int()` strips from both ends (the ASCII part of
      Python's `str.isspace`). */
  const WHITESPACE: set<char> := {' ', '\t', '\n', '\r', '\U{0B}', '\U{0C}', '\U{1C}', '\U{1D}', '\U{1E}', '\U{1F}'}

  function NatToString(n: nat): string
    decreases n
  {
    if n < 10 then [DigitChar(n)] else NatToString(n / 10) + [DigitChar(n % 10)]
  }

  /** `str(n)`: a minus sign for negative values, no leading zeros. */
  function IntToString(n: int): string
  {
    if n < 0 then "-" + NatToString(-n) else NatToString(n)
  }

  predicate AllDigits(d: string)
  {
    forall i :: 0 <= i < |d| ==> IsDigit(d[i])
  }

  function DigitsValue(d: string): nat
    requires AllDigits(d)
    decreases |d|
  {
    if |d| == 0 then 0 else 10 * DigitsValue(d[..|d| - 1]) + DigitValue(d[|d| - 1])
  }

  /** Python's decimal integer literal body: digits, with single underscores
      allowed between two digits. */
  predicate DigitGroups(d: string)
  {
    && |d| > 0
    && IsDigit(d[0])
    && IsDigit(d[|d| - 1])
    && (forall i :: 0 <= i < |d| ==> IsDigit(d[i]) || d[i] == '_')
    && (forall i :: 0 <= i < |d| - 1 ==> d[i] == '_' ==> d[i + 1] != '_')
  }

  function RemoveUnderscores(d: string): (r: string)
    ensures forall c :: c in r ==> c in d && c != '_'
    decreases |d|
  {
    if |d| == 0 then []
    else (if d[0] == '_' then [] else [d[0]]) + RemoveUnderscores(d[1..])
  }

  function ParseDigits(d: string): Option<nat>
  {
    if DigitGroups(d) then
      var digits := RemoveUnderscores(d);
      assert AllDigits(digits) by {
        forall i | 0 <= i < |digits| ensures IsDigit(digits[i]) {
          assert digits[i] in digits;
          var j :| 0 <= j < |d| && d[j] == digits[i];
        }
      }
      Some(DigitsValue(digits))
    else None
  }

  /** `int(s)` in base 10: surrounding whitespace, an optional sign, then
      digit groups; None where Python raises ValueError. */
  function ParseInt(s: string): Option<int>
  {
    var t := Strip(s, WHITESPACE);
    if |t| > 0 && (t[0] == '-' || t[0] == '+') then
      match ParseDigits(t[1..])
      case None => None
      case Some(v) =>
        var n: int := if t[0] == '-' then -(v as int) else v;
        Some(n)
    else
      match ParseDigits(t)
      case None => None
      case Some(v) => Some(v)
  }

  lemma {:induction false} NatToStringShape(n: nat)
    ensures |NatToString(n)| > 0 && AllDigits(NatToString(n))
    ensures DigitsValue(NatToString(n)) == n
    decreases n
  {
    if n >= 10 {
      NatToStringShape(n / 10);
      var p := NatToString(n / 10);
      var s := p + [DigitChar(n % 10)];
      assert s[..|s| - 1] == p;
      assert DigitValue(DigitChar(n % 10)) == n % 10;
    } else {
      assert DigitValue(DigitChar(n)) == n;
      assert NatToString(n)[..0] == [];
    }
  }

  lemma {:induction false} RemoveUnderscoresNone(d: string)
    requires '_' !in d
    ensures RemoveUnderscores(d) == d
    decreases |d|
  {
    if |d| > 0 {
      assert d == [d[0]] + d[1..];
      RemoveUnderscoresNone(d[1..]);
    }
  }

  lemma ParseDigitsOfNat(n: nat)
    ensures ParseDigits(NatToString(n)) == Some(n)
  {
    var d := NatToString(n);
    NatToStringShape(n);
    assert forall i :: 0 <= i < |d| ==> d[i] != '_';
    RemoveUnderscoresNone(d);
    assert DigitGroups(d);
  }

  /** `int(str(n)) == n`: the decimal rendering reads back as the same number. */
  lemma ParseIntToString(n: int)
    ensures ParseInt(IntToString(n)) == Some(n)
  {
    var s := IntToString(n);
    var d := NatToString(if n < 0 then -n else n);
    NatToStringShape(if n < 0 then -n else n);
    assert IsDigit(d[|d| - 1]);
    assert IsDigit(d[0]);
    assert s[|s| - 1] == d[|d| - 1];
    StripUntouched(s, WHITESPACE);
    ParseDigitsOfNat(if n < 0 then -n else n);
    if n < 0 {
      assert s[1..] == d;
    } else {
      assert s == d;
    }
  }

  /** Distinct numbers render as distinct strings. */
  lemma IntToStringInjective(a: int, b: int)
    requires IntToString(a) == IntToString(b)
    ensures a == b
  {
    ParseIntToString(a);
    ParseIntToString(b);
  }
}

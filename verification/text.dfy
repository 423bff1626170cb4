/**
 * The string operations of Python's `str` that the core relies on:
 * `strip()`, `lower()`, `upper()`, `str(int)` and slicing with a possibly
 * negative bound. Strings are sequences of code points.
 */
module Text {
  import opened Wrappers

  /** `c.isspace()`: the code points Python's `str.strip()` removes by default. */
  predicate IsSpace(c: char)
  {
    ('\t' <= c <= '\r') || ('\U{1C}' <= c <= ' ') || c == '\U{85}' || c == '\U{A0}'
    || c == '\U{1680}' || ('\U{2000}' <= c <= '\U{200A}') || c == '\U{2028}' || c == '\U{2029}'
    || c == '\U{202F}' || c == '\U{205F}' || c == '\U{3000}'
  }

  predicate AllSpace(s: string)
  {
    forall i :: 0 <= i < |s| ==> IsSpace(s[i])
  }

  /** `s.lstrip()`: drops the whitespace prefix. */
  function StripLeft(s: string): (r: string)
    ensures |r| <= |s| && r == s[|s| - |r|..]
    ensures AllSpace(s[..|s| - |r|])
    ensures r == [] || !IsSpace(r[0])
  {
    if s != [] && IsSpace(s[0]) then
      var t := s[1..];
      var r := StripLeft(t);
      assert s[..|s| - |r|] == [s[0]] + t[..|t| - |r|];
      r
    else s
  }

  /** `s.rstrip()`: drops the whitespace suffix. */
  function StripRight(s: string): (r: string)
    ensures |r| <= |s| && r == s[..|r|]
    ensures AllSpace(s[|r|..])
    ensures r == [] || !IsSpace(r[|r| - 1])
  {
    if s != [] && IsSpace(s[|s| - 1]) then
      var t := s[..|s| - 1];
      var r := StripRight(t);
      assert s[|r|..] == t[|r|..] + [s[|s| - 1]];
      r
    else s
  }

  /** `s.strip()`. */
  function Strip(s: string): (r: string)
    ensures |r| <= |s|
    ensures r == [] || (!IsSpace(r[0]) && !IsSpace(r[|r| - 1]))
  {
    StripRight(StripLeft(s))
  }

  /** A whitespace prefix never survives `lstrip`. */
  lemma {:induction false} StripLeftPadded(p: string, s: string)
    requires AllSpace(p)
    ensures StripLeft(p + s) == StripLeft(s)
  {
    if p == [] {
      assert p + s == s;
    } else {
      assert (p + s)[0] == p[0] && IsSpace(p[0]);
      assert (p + s)[1..] == p[1..] + s;
      StripLeftPadded(p[1..], s);
    }
  }

  /** A whitespace suffix never survives `rstrip`. */
  lemma {:induction false} StripRightPadded(s: string, q: string)
    requires AllSpace(q)
    ensures StripRight(s + q) == StripRight(s)
  {
    if q == [] {
      assert s + q == s;
    } else {
      var q' := q[..|q| - 1];
      assert (s + q)[|s + q| - 1] == q[|q| - 1] && IsSpace(q[|q| - 1]);
      assert (s + q)[..|s + q| - 1] == s + q';
      StripRightPadded(s, q');
    }
  }

  /** `lstrip` of a concatenation: it only reaches the second part through an all-blank first part. */
  lemma {:induction false} StripLeftAppend(s: string, q: string)
    ensures StripLeft(s + q) == if AllSpace(s) then StripLeft(q) else StripLeft(s) + q
  {
    if s == [] {
      assert s + q == q;
    } else {
      var sq := s + q;
      assert sq[0] == s[0];
      AllSpaceCons(s);
      if IsSpace(s[0]) {
        assert sq[1..] == s[1..] + q;
        assert StripLeft(sq) == StripLeft(s[1..] + q);
        assert StripLeft(s) == StripLeft(s[1..]);
        StripLeftAppend(s[1..], q);
      } else {
        assert StripLeft(sq) == sq;
        assert StripLeft(s) == s;
      }
    }
  }

  /** A non-empty text is blank when its first character is and the rest is. */
  lemma AllSpaceCons(s: string)
    requires s != []
    ensures AllSpace(s) <==> IsSpace(s[0]) && AllSpace(s[1..])
  {
    if IsSpace(s[0]) && AllSpace(s[1..]) {
      forall i | 0 <= i < |s|
        ensures IsSpace(s[i])
      {
        if i > 0 {
          assert s[i] == s[1..][i - 1];
        }
      }
    }
  }

  /** Surrounding whitespace never changes the result of `strip()`. */
  lemma StripPadded(p: string, s: string, q: string)
    requires AllSpace(p) && AllSpace(q)
    ensures Strip(p + s + q) == Strip(s)
  {
    assert p + s + q == p + (s + q);
    StripLeftPadded(p, s + q);
    StripLeftAppend(s, q);
    if AllSpace(s) {
      assert StripLeft(s) == [];
      assert StripRight(StripLeft(q)) == [] by {
        var l := StripLeft(q);
        assert AllSpace(l);
      }
    } else {
      StripRightPadded(StripLeft(s), q);
    }
  }

  /** A string without blank ends is left alone by `strip()`. */
  lemma StripUntouched(s: string)
    requires s == [] || (!IsSpace(s[0]) && !IsSpace(s[|s| - 1]))
    ensures Strip(s) == s
  {
    assert StripLeft(s) == s;
    assert StripRight(s) == s;
  }

  /** `strip()` is idempotent. */
  lemma StripIdempotent(s: string)
    ensures Strip(Strip(s)) == Strip(s)
  {
    var r := Strip(s);
    assert StripLeft(r) == r;
    assert StripRight(r) == r;
  }

  /** `c.lower()` on Latin-1; other code points are left as they are. */
  function LowerChar(c: char): char
  {
    if ('A' <= c <= 'Z') || ('À' <= c <= 'Þ' && c != '×')
    then (c as int + 32) as char
    else c
  }

  /** `s.lower()` (Latin-1 case mapping, one code point to one code point). */
  function Lower(s: string): (r: string)
    ensures |r| == |s|
    ensures forall i :: 0 <= i < |s| ==> r[i] == LowerChar(s[i])
  {
    if s == [] then [] else [LowerChar(s[0])] + Lower(s[1..])
  }

  /** `c.upper()` on Latin-1: `ß` becomes "SS", `ÿ` and `µ` leave Latin-1, the rest map one to one. */
  function UpperChar(c: char): string
  {
    if ('a' <= c <= 'z') || ('à' <= c <= 'þ' && c != '÷') then [(c as int - 32) as char]
    else if c == 'ß' then "SS"
    else if c == 'ÿ' then ['Ÿ']
    else if c == 'µ' then ['Μ']
    else [c]
  }

  /** `s.upper()` (Latin-1 case mapping): never shorter, and blanks neither appear nor vanish. */
  function Upper(s: string): (r: string)
    ensures |r| >= |s|
    ensures ' ' in r <==> ' ' in s
  {
    if s == [] then [] else UpperChar(s[0]) + Upper(s[1..])
  }

  /** `s.replace(c, "")`. */
  function RemoveChar(s: string, c: char): (r: string)
    ensures c !in r
    ensures |r| <= |s|
  {
    if s == [] then [] else (if s[0] == c then [] else [s[0]]) + RemoveChar(s[1..], c)
  }

  /** `s.strip(c)` with a one-character argument. */
  function StripCharBoth(s: string, c: char): (r: string)
    ensures r == [] || (r[0] != c && r[|r| - 1] != c)
    ensures |r| <= |s|
    ensures forall k :: 0 <= k < |r| ==> r[k] in s
  {
    if s != [] && s[0] == c then StripCharBoth(s[1..], c)
    else if s != [] && s[|s| - 1] == c then StripCharBoth(s[..|s| - 1], c)
    else s
  }

  /** `s[:k]` for any integer k: a negative k counts from the end. */
  function SliceTo(s: string, k: int): (r: string)
    ensures |r| <= |s| && r == s[..|r|]
    ensures 0 <= k ==> |r| == if k < |s| then k else |s|
  {
    if k >= 0 then (if k < |s| then s[..k] else s)
    else if |s| + k > 0 then s[..|s| + k] else []
  }

  predicate IsDigit(c: char)
  {
    '0' <= c <= '9'
  }

  predicate AllDigits(s: string)
  {
    forall i :: 0 <= i < |s| ==> IsDigit(s[i])
  }

  function DigitChar(d: nat): (c: char)
    requires d < 10
    ensures IsDigit(c)
  {
    ('0' as int + d) as char
  }

  /** `str(n)` for a non-negative integer: decimal digits, no leading zero. */
  function NatToString(n: nat): (s: string)
    ensures s != [] && AllDigits(s)
    ensures |s| > 1 ==> s[0] != '0'
  {
    if n < 10 then [DigitChar(n)] else NatToString(n / 10) + [DigitChar(n % 10)]
  }

  /** `str(i)` for any integer. */
  function IntToString(i: int): (s: string)
    ensures s != []
    ensures '|' !in s
  {
    if i < 0 then "-" + NatToString(-i) else NatToString(i)
  }

  /** Value of a string of decimal digits. */
  function DigitsValue(s: string): nat
    requires AllDigits(s)
  {
    if s == [] then 0 else 10 * DigitsValue(s[..|s| - 1]) + (s[|s| - 1] as int - '0' as int)
  }

  /** Reading back the digits of `str(n)` gives n: the rendering loses nothing. */
  lemma {:induction false} NatToStringRoundTrip(n: nat)
    ensures DigitsValue(NatToString(n)) == n
  {
    if n >= 10 {
      NatToStringRoundTrip(n / 10);
      var s := NatToString(n);
      assert s[..|s| - 1] == NatToString(n / 10);
    }
  }

  /** Distinct numbers render as distinct strings. */
  lemma NatToStringInjective(m: nat, n: nat)
    requires NatToString(m) == NatToString(n)
    ensures m == n
  {
    NatToStringRoundTrip(m);
    NatToStringRoundTrip(n);
  }

  /** `f"{n:02d}"` for a non-negative integer: zero-padded to at least two digits. */
  function Pad2(n: nat): (s: string)
    ensures |s| >= 2 && AllDigits(s)
  {
    if n < 10 then "0" + NatToString(n) else NatToString(n)
  }

  /** Reading back a zero-padded rendering gives the number. */
  lemma Pad2RoundTrip(n: nat)
    ensures DigitsValue(Pad2(n)) == n
  {
    NatToStringRoundTrip(n);
    if n < 10 {
      var s := Pad2(n);
      assert s[..|s| - 1] == "0";
      assert DigitsValue("0") == 0 by {
        assert "0"[..0] == [];
      }
    }
  }

  /**
   * `int(s)` for a string argument: surrounding whitespace, an optional sign,
   * then ASCII decimal digits. Underscores between digits and non-ASCII
   * digits, which Python also accepts, are refused here.
   */
  function ParseInt(s: string): Result<int>
  {
    var t := Strip(s);
    if |t| > 1 && (t[0] == '-' || t[0] == '+') && AllDigits(t[1..]) then
      (if t[0] == '-' then Ok(-(DigitsValue(t[1..]) as int)) else Ok(DigitsValue(t[1..])))
    else if t != [] && AllDigits(t) then Ok(DigitsValue(t))
    else Err("ValueError: invalid literal for int()")
  }
}

/** The string primitives the components rely on, over `seq<char>`:
    `toLowerCase` (ASCII letters only), `includes`, `trim`, and `parseInt`
    with no radix, together with the reference definitions they are proved
    against. */
module Text {
  import opened Common

  // ---------------------------------------------------------------------
  // toLowerCase

  predicate IsUpper(c: char) { 'A' <= c <= 'Z' }

  function LowerChar(c: char): char
  {
    if IsUpper(c) then (c as int + 32) as char else c
  }

  /** `s.toLowerCase()` restricted to ASCII: upper-case letters become lower
      case, every other character is kept. */
  function Lower(s: string): (r: string)
    ensures |r| == |s|
    ensures forall i :: 0 <= i < |s| ==> !IsUpper(r[i])
    ensures forall i :: 0 <= i < |s| && !IsUpper(s[i]) ==> r[i] == s[i]
    ensures forall i :: 0 <= i < |s| && IsUpper(s[i]) ==> r[i] as int == s[i] as int + 32
  {
    if s == [] then [] else [LowerChar(s[0])] + Lower(s[1..])
  }

  /** Lower-casing twice is lower-casing once. */
  lemma {:induction false} LowerIdempotent(s: string)
    ensures Lower(Lower(s)) == Lower(s)
  {
    if s != [] {
      LowerIdempotent(s[1..]);
      assert Lower(s)[1..] == Lower(s[1..]);
    }
  }

  /** A string without upper-case letters is its own lower-case form. */
  lemma LowerNoUpper(s: string)
    requires forall i :: 0 <= i < |s| ==> !IsUpper(s[i])
    ensures Lower(s) == s
  {
  }

  // ---------------------------------------------------------------------
  // includes

  /** `sub` occurs in `s` starting at position `i`. */
  predicate OccursAt(s: string, sub: string, i: int)
  {
    0 <= i && i + |sub| <= |s| && s[i..i + |sub|] == sub
  }

  /** `s.includes(sub)`: scan the start positions of `s` from left to right. */
  function Contains(s: string, sub: string): bool
  {
    if |sub| > |s| then false
    else s[..|sub|] == sub || Contains(s[1..], sub)
  }

  /** The scan agrees with the reference definition: `sub` occurs at some
      position of `s`. */
  lemma {:induction false} ContainsIff(s: string, sub: string)
    ensures Contains(s, sub) <==> exists i :: OccursAt(s, sub, i)
  {
    if |sub| > |s| {
      forall i | OccursAt(s, sub, i) ensures false { }
    } else if s[..|sub|] == sub {
      assert OccursAt(s, sub, 0);
    } else {
      ContainsIff(s[1..], sub);
      if Contains(s[1..], sub) {
        var i :| OccursAt(s[1..], sub, i);
        assert s[1..][i..i + |sub|] == s[i + 1..i + 1 + |sub|];
        assert OccursAt(s, sub, i + 1);
      } else {
        forall i | OccursAt(s, sub, i) ensures false {
          if i > 0 {
            assert s[1..][i - 1..i - 1 + |sub|] == s[i..i + |sub|];
            assert OccursAt(s[1..], sub, i - 1);
          }
        }
      }
    }
  }

  /** A witness position is enough to show `includes`. */
  lemma ContainsAt(s: string, sub: string, i: int)
    requires OccursAt(s, sub, i)
    ensures Contains(s, sub)
  {
    ContainsIff(s, sub);
  }

  // ---------------------------------------------------------------------
  // trim

  /** The characters `String.prototype.trim` removes: ECMAScript white space
      (tab, vertical tab, form feed, space, no-break space, byte order mark,
      the Unicode space separators) and line terminators. */
  predicate IsSpace(c: char)
  {
    c == '\t' || c == '\n' || c == '\U{000B}' || c == '\U{000C}' || c == '\r' || c == ' '
    || c == '\U{00A0}' || c == '\U{1680}' || ('\U{2000}' <= c <= '\U{200A}')
    || c == '\U{2028}' || c == '\U{2029}' || c == '\U{202F}' || c == '\U{205F}'
    || c == '\U{3000}' || c == '\U{FEFF}'
  }

  predicate AllSpace(s: string)
  {
    forall i :: 0 <= i < |s| ==> IsSpace(s[i])
  }

  function TrimStart(s: string): (r: string)
    ensures r == [] || !IsSpace(r[0])
    ensures |r| <= |s| && r == s[|s| - |r|..]
    ensures AllSpace(s[..|s| - |r|])
  {
    if s != [] && IsSpace(s[0]) then TrimStart(s[1..]) else s
  }

  function TrimEnd(s: string): (r: string)
    ensures r == [] || !IsSpace(r[|r| - 1])
    ensures |r| <= |s| && r == s[..|r|]
    ensures AllSpace(s[|r|..])
  {
    if s != [] && IsSpace(s[|s| - 1]) then TrimEnd(s[..|s| - 1]) else s
  }

  /** `s.trim()`. */
  function Trim(s: string): string
  {
    TrimEnd(TrimStart(s))
  }

  lemma {:induction false} TrimStartEmptyIff(s: string)
    ensures TrimStart(s) == [] <==> AllSpace(s)
  {
    if s != [] && IsSpace(s[0]) {
      TrimStartEmptyIff(s[1..]);
      AllSpaceCons(s);
    }
  }

  lemma AllSpaceCons(s: string)
    requires s != []
    ensures AllSpace(s) <==> IsSpace(s[0]) && AllSpace(s[1..])
  {
    if IsSpace(s[0]) && AllSpace(s[1..]) {
      forall i | 0 <= i < |s| ensures IsSpace(s[i]) {
        if i > 0 { assert s[i] == s[1..][i - 1]; }
      }
    }
  }

  /** The chatbot's "empty input" test: `!s.trim()` holds exactly when every
      character of `s` is white space (in particular for the empty string). */
  lemma TrimEmptyIff(s: string)
    ensures Trim(s) == [] <==> AllSpace(s)
  {
    TrimStartEmptyIff(s);
    var t := TrimStart(s);
    if t != [] {
      assert TrimEnd(t) != [] by {
        if TrimEnd(t) == [] {
          assert !IsSpace(t[0]);
          TrimEndKeepsNonSpaceHead(t);
        }
      }
    }
  }

  lemma {:induction false} TrimEndKeepsNonSpaceHead(t: string)
    requires t != [] && !IsSpace(t[0])
    ensures TrimEnd(t) != []
  {
    if IsSpace(t[|t| - 1]) {
      assert |t| > 1;
      TrimEndKeepsNonSpaceHead(t[..|t| - 1]);
    }
  }

  // ---------------------------------------------------------------------
  // parseInt and the decimal rendering of a number

  predicate IsDigit(c: char) { '0' <= c <= '9' }

  function DigitValue(c: char): nat
    requires IsDigit(c)
  {
    c as int - '0' as int
  }

  function DigitChar(d: nat): (c: char)
    requires d < 10
    ensures IsDigit(c) && DigitValue(c) == d
  {
    ('0' as int + d) as char
  }

  predicate AllDigits(s: string)
  {
    forall i :: 0 <= i < |s| ==> IsDigit(s[i])
  }

  /** Number of leading decimal digits of `s`. */
  function DigitRun(s: string): (n: nat)
    ensures n <= |s|
    ensures forall i :: 0 <= i < n ==> IsDigit(s[i])
    ensures n < |s| ==> !IsDigit(s[n])
  {
    if s != [] && IsDigit(s[0]) then 1 + DigitRun(s[1..]) else 0
  }

  /** The value of a string of decimal digits, most significant first. */
  function DigitsValue(s: string): nat
    requires AllDigits(s)
  {
    if s == [] then 0 else DigitsValue(s[..|s| - 1]) * 10 + DigitValue(s[|s| - 1])
  }

  /** The text after an optional leading sign. */
  function Unsigned(t: string): string
  {
    if t != [] && (t[0] == '-' || t[0] == '+') then t[1..] else t
  }

  /** The value of the leading digits of `u`. */
  function LeadingValue(u: string): nat
  {
    DigitsValue(u[..DigitRun(u)])
  }

  /** `parseInt(s)` without a radix, on decimal input: skip leading white
      space, read an optional sign, then the longest run of decimal digits;
      `None` stands for `NaN`, the result when there is no digit. */
  function ParseInt(s: string): Option<int>
  {
    ParseTrimmed(TrimStart(s))
  }

  /** `parseInt` after the leading white space. */
  function ParseTrimmed(t: string): Option<int>
  {
    var u := Unsigned(t);
    if DigitRun(u) == 0 then None
    else if t[0] == '-' then Some(0 - LeadingValue(u))
    else Some(LeadingValue(u))
  }

  /** Decimal digits of a natural number, most significant first: how a
      number is written into a text input. */
  function NatString(n: nat): (s: string)
    ensures s != [] && AllDigits(s)
  {
    if n < 10 then [DigitChar(n)] else NatString(n / 10) + [DigitChar(n % 10)]
  }

  /** `String(n)` for an integer. */
  function IntString(n: int): string
  {
    if n < 0 then "-" + NatString(-n) else NatString(n)
  }

  lemma {:induction false} NatStringValue(n: nat)
    ensures DigitsValue(NatString(n)) == n
  {
    if n >= 10 {
      NatStringValue(n / 10);
      var s := NatString(n);
      assert s[..|s| - 1] == NatString(n / 10);
    }
  }

  /** Parsing the rendering of an integer gives the integer back. */
  lemma ParseIntString(n: int)
    ensures ParseInt(IntString(n)) == Some(n)
  {
    if n < 0 {
      ParseNegativeString(n);
    } else {
      NatStringValue(n);
      ParseDigits(NatString(n));
    }
  }

  lemma ParseNegativeString(n: int)
    requires n < 0
    ensures ParseInt(IntString(n)) == Some(n)
  {
    var m: nat := -n;
    NegativeString(n);
    NatStringValue(m);
    ParseSignedValue(IntString(n), NatString(m), m);
  }

  lemma ParseSignedValue(s: string, d: string, v: nat)
    requires |s| >= 2 && s[0] == '-' && s[1..] == d && AllDigits(d) && DigitsValue(d) == v
    ensures ParseInt(s) == Some(-(v as int))
  {
    ParseSignedDigits(s, d);
  }

  /** A negative number is written as a minus sign and the digits of its
      absolute value. */
  lemma NegativeString(n: int)
    requires n < 0
    ensures |IntString(n)| >= 2 && IntString(n)[0] == '-' && IntString(n)[1..] == NatString(-n)
  {
    var s := IntString(n);
    assert s == "-" + NatString(-n);
  }

  /** Text that starts with a character other than white space is not
      trimmed. */
  lemma TrimStartKeeps(s: string)
    requires s != [] && !IsSpace(s[0])
    ensures TrimStart(s) == s
  {
  }

  lemma ParseDigits(d: string)
    requires d != [] && AllDigits(d)
    ensures ParseInt(d) == Some(DigitsValue(d))
  {
    assert IsDigit(d[0]);
    TrimStartKeeps(d);
    UnsignedDigits(d);
    LeadingValueAll(d);
    assert ParseTrimmed(d) == Some(LeadingValue(d));
  }

  lemma UnsignedDigits(d: string)
    requires d != [] && IsDigit(d[0])
    ensures Unsigned(d) == d && d[0] != '-'
  {
  }

  lemma ParseSignedDigits(s: string, d: string)
    requires |s| >= 2 && s[0] == '-' && s[1..] == d && AllDigits(d)
    ensures ParseInt(s) == Some(0 - DigitsValue(d))
  {
    TrimStartKeeps(s);
    assert Unsigned(s) == d;
    LeadingValueAll(d);
    assert ParseTrimmed(s) == Some(0 - LeadingValue(d));
  }

  lemma LeadingValueAll(d: string)
    requires AllDigits(d)
    ensures DigitRun(d) == |d| && LeadingValue(d) == DigitsValue(d)
  {
    DigitRunAll(d);
    assert d[..|d|] == d;
  }

  lemma {:induction false} DigitRunAll(s: string)
    requires AllDigits(s)
    ensures DigitRun(s) == |s|
  {
    if s != [] { DigitRunAll(s[1..]); }
  }
}

/** The string operations of Python's `str` that the program relies on,
    restricted to ASCII: lower-casing, capitalising, stripping white space,
    digit tests, integer parsing and printing, zero padding, prefix and
    suffix tests, `os.path.splitext` and the last piece of `split(sep)`. */
module Text {

  // ---------------------------------------------------------------- case

  function LowerChar(c: char): char
  {
    if 'A' <= c <= 'Z' then (c as int + 32) as char else c
  }

  function UpperChar(c: char): char
  {
    if 'a' <= c <= 'z' then (c as int - 32) as char else c
  }

  /** `s.lower()` */
  function Lower(s: string): (r: string)
    ensures |r| == |s| && forall i :: 0 <= i < |s| ==> r[i] == LowerChar(s[i])
  {
    if s == [] then [] else Lower(s[..|s| - 1]) + [LowerChar(s[|s| - 1])]
  }

  /** `s.capitalize()`: first character upper case, the rest lower case. */
  function Capitalize(s: string): string
  {
    if s == [] then [] else [UpperChar(s[0])] + Lower(s[1..])
  }

  /** Lower-casing distributes over concatenation. */
  lemma LowerAppend(a: string, b: string)
    ensures Lower(a + b) == Lower(a) + Lower(b)
  {
    assert forall i :: 0 <= i < |a + b| ==> Lower(a + b)[i] == (Lower(a) + Lower(b))[i];
  }

  /** Lower-casing is idempotent. */
  lemma LowerLower(s: string)
    ensures Lower(Lower(s)) == Lower(s)
  {
    assert forall i :: 0 <= i < |s| ==> Lower(Lower(s))[i] == Lower(s)[i];
  }

  /** `t` is `s` lower-cased when they agree character by character. */
  lemma LowerIs(s: string, t: string)
    requires |s| == |t| && forall i :: 0 <= i < |s| ==> LowerChar(s[i]) == t[i]
    ensures Lower(s) == t
  {
  }

  /** Capitalising changes a word only in case. */
  lemma LowerCapitalize(s: string)
    ensures Lower(Capitalize(s)) == Lower(s)
  {
    if s != [] {
      var c := Capitalize(s);
      assert |c| == |s| && LowerChar(c[0]) == LowerChar(s[0]);
      forall i | 1 <= i < |s|
        ensures LowerChar(c[i]) == Lower(s)[i]
      {
        assert c[i] == Lower(s[1..])[i - 1] == LowerChar(s[i]);
      }
      LowerIs(c, Lower(s));
    }
  }

  // --------------------------------------------------------- white space

  /** The characters `str.isspace` accepts within ASCII. */
  predicate IsSpace(c: char)
  {
    c == ' ' || '\t' <= c <= '\r' || '\U{1c}' <= c <= '\U{1f}'
  }

  function StripLeft(s: string): (r: string)
    ensures |r| <= |s|
  {
    if s != [] && IsSpace(s[0]) then StripLeft(s[1..]) else s
  }

  function StripRight(s: string): (r: string)
    ensures |r| <= |s|
  {
    if s != [] && IsSpace(s[|s| - 1]) then StripRight(s[..|s| - 1]) else s
  }

  /** `s.strip()` */
  function Strip(s: string): string
  {
    StripRight(StripLeft(s))
  }

  /** `lstrip` drops the leading white space and nothing else. */
  lemma {:induction false} StripLeftShape(s: string)
    ensures StripLeft(s) == s[|s| - |StripLeft(s)|..]
    ensures StripLeft(s) == [] || !IsSpace(StripLeft(s)[0])
    ensures forall i :: 0 <= i < |s| - |StripLeft(s)| ==> IsSpace(s[i])
  {
    if s != [] && IsSpace(s[0]) {
      StripLeftShape(s[1..]);
    }
  }

  /** `rstrip` drops the trailing white space and nothing else. */
  lemma {:induction false} StripRightShape(s: string)
    ensures StripRight(s) == s[..|StripRight(s)|]
    ensures StripRight(s) == [] || !IsSpace(StripRight(s)[|StripRight(s)| - 1])
    ensures forall i :: |StripRight(s)| <= i < |s| ==> IsSpace(s[i])
  {
    if s != [] && IsSpace(s[|s| - 1]) {
      StripRightShape(s[..|s| - 1]);
    }
  }

  /** A stripped string is empty exactly when the input was all white space. */
  lemma StripEmptyIff(s: string)
    ensures Strip(s) == [] <==> forall i :: 0 <= i < |s| ==> IsSpace(s[i])
  {
    var l := StripLeft(s);
    StripLeftShape(s);
    StripRightShape(l);
    if l != [] {
      assert l[0] == s[|s| - |l|];
    }
  }

  // -------------------------------------------------------------- affixes

  predicate StartsWith(s: string, prefix: string)
  {
    |prefix| <= |s| && s[..|prefix|] == prefix
  }

  predicate EndsWith(s: string, suffix: string)
  {
    |suffix| <= |s| && s[|s| - |suffix|..] == suffix
  }

  // --------------------------------------------------------------- digits

  predicate IsDigit(c: char)
  {
    '0' <= c <= '9'
  }

  predicate AllDigits(s: string)
  {
    forall i :: 0 <= i < |s| ==> IsDigit(s[i])
  }

  /** `s.isdigit()` within ASCII: non-empty and only decimal digits. */
  predicate IsDigits(s: string)
  {
    |s| > 0 && AllDigits(s)
  }

  function DigitChar(d: nat): char
    requires d < 10
  {
    ('0' as int + d) as char
  }

  /** `int(s)` for a string of decimal digits. */
  function ParseNat(s: string): nat
    requires AllDigits(s)
  {
    if s == [] then 0 else 10 * ParseNat(s[..|s| - 1]) + (s[|s| - 1] as int - '0' as int)
  }

  /** `str(n)` for a non-negative integer. */
  function Decimal(n: nat): (r: string)
    ensures IsDigits(r)
  {
    if n < 10 then [DigitChar(n)] else Decimal(n / 10) + [DigitChar(n % 10)]
  }

  /** Printing then parsing gives the number back. */
  lemma {:induction false} ParseDecimal(n: nat)
    ensures ParseNat(Decimal(n)) == n
  {
    if n >= 10 {
      var d := Decimal(n);
      assert d[..|d| - 1] == Decimal(n / 10);
      ParseDecimal(n / 10);
    }
  }

  function Zeros(k: nat): (r: string)
    ensures |r| == k && AllDigits(r)
  {
    seq(k, _ => '0')
  }

  lemma {:induction false} ParseZeros(k: nat, s: string)
    requires AllDigits(s)
    ensures ParseNat(Zeros(k) + s) == ParseNat(s)
  {
    if s == [] {
      if k > 0 {
        assert (Zeros(k) + s)[..k - 1] == Zeros(k - 1) + s;
        ParseZeros(k - 1, s);
      }
    } else {
      assert (Zeros(k) + s)[..|Zeros(k) + s| - 1] == Zeros(k) + s[..|s| - 1];
      ParseZeros(k, s[..|s| - 1]);
    }
  }

  /** Pads a digit string with leading zeros up to `width` characters. */
  function ZeroPad(s: string, width: nat): string
  {
    if |s| >= width then s else Zeros(width - |s|) + s
  }

  /** `f"{n:03d}"` for a non-negative integer. */
  function Pad3(n: nat): string
  {
    ZeroPad(Decimal(n), 3)
  }

  /** A padded number is all digits, at least three wide, and parses back to
      the number it was made from. */
  lemma PadRoundTrip(n: nat)
    ensures IsDigits(Pad3(n)) && |Pad3(n)| >= 3
    ensures ParseNat(Pad3(n)) == n
  {
    ParseDecimal(n);
    if |Decimal(n)| < 3 {
      ParseZeros(3 - |Decimal(n)|, Decimal(n));
    }
  }

  /** Distinct numbers print differently. */
  lemma DecimalInjective(a: nat, b: nat)
    ensures Decimal(a) == Decimal(b) ==> a == b
  {
    ParseDecimal(a);
    ParseDecimal(b);
  }

  /** `str(s).zfill(width)`: zeros go after a leading sign. */
  function ZFill(s: string, width: nat): (r: string)
    ensures |r| == if |s| >= width then |s| else width
  {
    if |s| >= width then s
    else if s != [] && (s[0] == '+' || s[0] == '-') then [s[0]] + Zeros(width - |s|) + s[1..]
    else Zeros(width - |s|) + s
  }

  // ------------------------------------------------- splitting and ext.

  /** Index of the last `c` in `s`, or -1. */
  function LastIndex(s: string, c: char): (r: int)
    ensures -1 <= r < |s|
  {
    if s == [] then -1
    else if s[|s| - 1] == c then |s| - 1
    else LastIndex(s[..|s| - 1], c)
  }

  /** `s.split(sep)[-1]`: the text after the last separator. */
  function LastSegment(s: string, sep: char): string
  {
    s[LastIndex(s, sep) + 1..]
  }

  predicate AllDots(s: string)
  {
    forall i :: 0 <= i < |s| ==> s[i] == '.'
  }

  /** The extension `os.path.splitext` gives for a base name: from the last
      dot, unless only dots precede that dot. */
  function Ext(name: string): string
  {
    var d := LastIndex(name, '.');
    if d > 0 && !AllDots(name[..d]) then name[d..] else []
  }

  /** The part of a base name before its extension. */
  function Stem(name: string): string
  {
    var d := LastIndex(name, '.');
    if d > 0 && !AllDots(name[..d]) then name[..d] else name
  }
  /** `LastIndex` finds a `c`, and no `c` follows it. */
  lemma {:induction false} LastIndexShape(s: string, c: char)
    ensures LastIndex(s, c) >= 0 ==> s[LastIndex(s, c)] == c
    ensures forall j :: LastIndex(s, c) < j < |s| ==> s[j] != c
  {
    if s != [] && s[|s| - 1] != c {
      LastIndexShape(s[..|s| - 1], c);
    }
  }

  /** The last `c` is at `i` when `s[i]` is `c` and nothing after it is. */
  lemma LastIndexIs(s: string, c: char, i: nat)
    requires i < |s| && s[i] == c
    requires forall j :: i < j < |s| ==> s[j] != c
    ensures LastIndex(s, c) == i
  {
    LastIndexShape(s, c);
  }

  /** What follows the last separator is the final piece when that piece
      holds no separator. */
  lemma LastSegmentAfter(a: string, sep: char, piece: string)
    requires forall i :: 0 <= i < |piece| ==> piece[i] != sep
    ensures LastSegment(a + [sep] + piece, sep) == piece
  {
    LastIndexIs(a + [sep] + piece, sep, |a|);
  }

  /** Appending an extension (a dot and no further dot) to a stem that is
      not made of dots only: `splitext` gives the two parts back. */
  lemma ExtAfter(stem: string, ext: string)
    requires ext != [] && ext[0] == '.' && forall i :: 0 < i < |ext| ==> ext[i] != '.'
    requires !AllDots(stem)
    ensures Ext(stem + ext) == ext && Stem(stem + ext) == stem
  {
    var name := stem + ext;
    LastIndexIs(name, '.', |stem|);
    assert name[..|stem|] == stem;
  }

  /** The last piece ends the string and holds no separator. */
  lemma LastSegmentShape(s: string, sep: char)
    ensures EndsWith(s, LastSegment(s, sep))
    ensures forall i :: 0 <= i < |LastSegment(s, sep)| ==> LastSegment(s, sep)[i] != sep
  {
    LastIndexShape(s, sep);
  }

  /** An extension ends the name; it is empty, or a dot followed by no
      further dot; and the stem is what precedes it. */
  lemma ExtShape(name: string)
    ensures EndsWith(name, Ext(name))
    ensures Ext(name) == [] || (Ext(name)[0] == '.' && forall i :: 0 < i < |Ext(name)| ==> Ext(name)[i] != '.')
    ensures Stem(name) + Ext(name) == name
  {
    LastIndexShape(name, '.');
  }

  /** `s.lstrip(c)` */
  function LStrip(s: string, c: char): (r: string)
    ensures |r| <= |s|
  {
    if s != [] && s[0] == c then LStrip(s[1..], c) else s
  }

  /** `os.path.splitext(name)[1].lower().lstrip('.')`: the lower-cased
      extension without its dot. */
  function ExtName(name: string): string
  {
    LStrip(Lower(Ext(name)), '.')
  }

  /** The extension name is what follows the dot of the lower-cased
      extension, and it is empty when there is no extension. */
  lemma ExtNameShape(name: string)
    ensures Ext(name) == [] ==> ExtName(name) == []
    ensures Ext(name) != [] ==> "." + ExtName(name) == Lower(Ext(name))
  {
    ExtShape(name);
    var e := Ext(name);
    var l := Lower(e);
    if e != [] {
      assert l[0] == '.';
      assert LStrip(l, '.') == LStrip(l[1..], '.');
      if |l| > 1 {
        assert l[1] != '.';
      }
      assert LStrip(l[1..], '.') == l[1..];
    }
  }
}

/**
 * String helpers shared by the Swift client and the Python engine: joining and
 * splitting on a separator, whitespace trimming, decimal integer printing and
 * parsing, and the lexicographic order used to sort genre names.
 */
module Text {
  import opened Wrappers

  /** `sep.join(parts)` in Python, `parts.joined(separator: sep)` in Swift. */
  function Join(parts: seq<string>, sep: string): string
    decreases |parts|
  {
    if |parts| == 0 then ""
    else if |parts| == 1 then parts[0]
    else parts[0] + sep + Join(parts[1..], sep)
  }

  lemma JoinCons(p: string, rest: seq<string>, sep: string)
    ensures Join([p] + rest, sep) == if rest == [] then p else p + sep + Join(rest, sep)
  {
    assert ([p] + rest)[1..] == rest;
  }

  /** Joining a non-empty list yields the empty string only if it is one empty part. */
  lemma {:induction false} JoinEmpty(parts: seq<string>, sep: string)
    requires sep != ""
    ensures Join(parts, sep) == "" <==> parts == [] || parts == [""]
  {
    if |parts| > 1 {
      assert |Join(parts, sep)| >= |sep|;
    }
  }

  /**
   * Splits `s` at every occurrence of `sep`, scanning from the left
   * (Swift's `components(separatedBy:)`, Python's `str.split(sep)`).
   * There is always at least one component; "" splits into [""].
   */
  function Split(s: string, sep: string): (r: seq<string>)
    requires sep != ""
    ensures |r| >= 1
  {
    SplitFrom(s, sep, "")
  }

  /** Splitting where `piece` has already been read into the current component. */
  function SplitFrom(s: string, sep: string, piece: string): (r: seq<string>)
    requires sep != ""
    ensures |r| >= 1
    decreases |s|
  {
    if |s| < |sep| then [piece + s]
    else if s[..|sep|] == sep then [piece] + SplitFrom(s[|sep|..], sep, "")
    else SplitFrom(s[1..], sep, piece + [s[0]])
  }

  /** Splitting and joining again with the same separator gives back the string. */
  lemma JoinSplit(s: string, sep: string)
    requires sep != ""
    ensures Join(Split(s, sep), sep) == s
  {
    JoinSplitFrom(s, sep, "");
  }

  lemma {:induction false} JoinSplitFrom(s: string, sep: string, piece: string)
    requires sep != ""
    ensures Join(SplitFrom(s, sep, piece), sep) == piece + s
    decreases |s|
  {
    if |s| < |sep| {
    } else if s[..|sep|] == sep {
      JoinSplitFrom(s[|sep|..], sep, "");
      JoinSplitAtSeparator(s, sep, piece);
    } else {
      JoinSplitFrom(s[1..], sep, piece + [s[0]]);
      JoinSplitAtChar(s, sep, piece);
    }
  }

  lemma JoinSplitAtSeparator(s: string, sep: string, piece: string)
    requires sep != "" && |s| >= |sep| && s[..|sep|] == sep
    requires Join(SplitFrom(s[|sep|..], sep, ""), sep) == "" + s[|sep|..]
    ensures Join(SplitFrom(s, sep, piece), sep) == piece + s
  {
    var rest := SplitFrom(s[|sep|..], sep, "");
    SplitFromSeparator(s, sep, piece);
    JoinCons(piece, rest, sep);
    ConcatAtSeparator(s, sep, piece);
  }

  lemma SplitFromSeparator(s: string, sep: string, piece: string)
    requires sep != "" && |s| >= |sep| && s[..|sep|] == sep
    ensures SplitFrom(s, sep, piece) == [piece] + SplitFrom(s[|sep|..], sep, "")
  {
  }

  lemma ConcatAtSeparator(s: string, sep: string, piece: string)
    requires |s| >= |sep| && s[..|sep|] == sep
    ensures piece + sep + ("" + s[|sep|..]) == piece + s
  {
    assert "" + s[|sep|..] == s[|sep|..];
    assert sep + s[|sep|..] == s;
  }

  lemma JoinSplitAtChar(s: string, sep: string, piece: string)
    requires sep != "" && |s| >= |sep| && s[..|sep|] != sep
    requires Join(SplitFrom(s[1..], sep, piece + [s[0]]), sep) == piece + [s[0]] + s[1..]
    ensures Join(SplitFrom(s, sep, piece), sep) == piece + s
  {
    SplitFromChar(s, sep, piece);
    ConcatAtChar(s, piece);
  }

  lemma SplitFromChar(s: string, sep: string, piece: string)
    requires sep != "" && |s| >= |sep| && s[..|sep|] != sep
    ensures SplitFrom(s, sep, piece) == SplitFrom(s[1..], sep, piece + [s[0]])
  {
  }

  lemma ConcatAtChar(s: string, piece: string)
    requires |s| > 0
    ensures piece + [s[0]] + s[1..] == piece + s
  {
    assert [s[0]] + s[1..] == s;
  }

  /**
   * Splitting on a one-character separator undoes joining pieces that do not
   * contain that character.
   */
  lemma SplitJoin(parts: seq<string>, c: char)
    requires parts != []
    requires forall i :: 0 <= i < |parts| ==> c !in parts[i]
    ensures Split(Join(parts, [c]), [c]) == parts
  {
    SplitJoinFrom(parts, c, "");
    assert "" + parts[0] == parts[0];
    assert [parts[0]] + parts[1..] == parts;
  }

  lemma {:induction false} SplitJoinFrom(parts: seq<string>, c: char, piece: string)
    requires parts != []
    requires forall i :: 0 <= i < |parts| ==> c !in parts[i]
    ensures SplitFrom(Join(parts, [c]), [c], piece) == [piece + parts[0]] + parts[1..]
    decreases |parts|
  {
    if |parts| == 1 {
      SplitFromPlain(parts[0], "", c, piece);
      assert parts[0] + "" == parts[0];
      assert SplitFrom("", [c], piece + parts[0]) == [piece + parts[0] + ""];
      assert piece + parts[0] + "" == piece + parts[0];
    } else {
      var rest := parts[1..];
      var tail := Join(rest, [c]);
      assert Join(parts, [c]) == parts[0] + ([c] + tail) by {
        assert parts[0] + [c] + tail == parts[0] + ([c] + tail);
      }
      SplitFromPlain(parts[0], [c] + tail, c, piece);
      SplitFromAtSeparator([c] + tail, c, piece + parts[0]);
      forall i | 0 <= i < |rest| ensures c !in rest[i] {
        assert rest[i] == parts[i + 1];
      }
      SplitJoinFrom(rest, c, "");
      assert "" + rest[0] == rest[0];
      assert [rest[0]] + rest[1..] == rest;
    }
  }

  /** Reading a stretch free of the separator only extends the current component. */
  lemma {:induction false} SplitFromPlain(p: string, t: string, c: char, piece: string)
    requires c !in p
    ensures SplitFrom(p + t, [c], piece) == SplitFrom(t, [c], piece + p)
    decreases |p|
  {
    if p == [] {
      assert p + t == t && piece + p == piece;
    } else {
      var s := p + t;
      assert s[..1] == [p[0]] && s[0] == p[0];
      assert p[0] != c;
      SplitFromChar(s, [c], piece);
      assert s[1..] == p[1..] + t;
      SplitFromPlain(p[1..], t, c, piece + [p[0]]);
      assert piece + [p[0]] + p[1..] == piece + p;
    }
  }

  lemma SplitFromAtSeparator(t: string, c: char, piece: string)
    requires |t| >= 1 && t[0] == c
    ensures SplitFrom(t, [c], piece) == [piece] + SplitFrom(t[1..], [c], "")
  {
    assert t[..1] == [c];
    SplitFromSeparator(t, [c], piece);
  }

  // ---------------------------------------------------------------- trimming

  /** Swift's `CharacterSet.whitespaces`: tab and the Unicode space separators (Zs). */
  predicate IsSwiftSpace(c: char) {
    c == '\t' || c == ' ' || c == '\U{00A0}' || c == '\U{1680}' ||
    ('\U{2000}' <= c <= '\U{200A}') || c == '\U{202F}' || c == '\U{205F}' || c == '\U{3000}'
  }

  /** Python's `str.isspace()` for one character. */
  predicate IsPySpace(c: char) {
    ('\t' <= c <= '\r') || ('\U{001C}' <= c <= '\U{001F}') || c == ' ' || c == '\U{0085}' ||
    c == '\U{00A0}' || c == '\U{1680}' || ('\U{2000}' <= c <= '\U{200A}') ||
    c == '\U{2028}' || c == '\U{2029}' || c == '\U{202F}' || c == '\U{205F}' || c == '\U{3000}'
  }

  /** Drops the leading characters satisfying `sp`. */
  function TrimStart(s: string, sp: char -> bool): (r: string)
    ensures |r| <= |s| && r == s[|s| - |r|..]
    ensures r == [] || !sp(r[0])
    ensures forall k :: 0 <= k < |s| - |r| ==> sp(s[k])
  {
    if s != [] && sp(s[0]) then TrimStart(s[1..], sp) else s
  }

  /** Drops the trailing characters satisfying `sp`. */
  function TrimEnd(s: string, sp: char -> bool): (r: string)
    ensures |r| <= |s| && r == s[..|r|]
    ensures r == [] || !sp(r[|r| - 1])
    ensures forall k :: |r| <= k < |s| ==> sp(s[k])
  {
    if s != [] && sp(s[|s| - 1]) then TrimEnd(s[..|s| - 1], sp) else s
  }

  /** Drops leading and trailing characters satisfying `sp`. */
  function Trim(s: string, sp: char -> bool): (r: string)
    ensures r == [] || (!sp(r[0]) && !sp(r[|r| - 1]))
  {
    var t := TrimStart(s, sp);
    TrimEnd(t, sp)
  }

  /** Trimming a second time changes nothing. */
  lemma TrimIdempotent(s: string, sp: char -> bool)
    ensures Trim(Trim(s, sp), sp) == Trim(s, sp)
  {
    var t := Trim(s, sp);
    if t != [] {
      assert TrimStart(t, sp) == t;
    }
  }

  /** What trimming keeps is a contiguous piece of the input. */
  lemma TrimIsInfix(s: string, sp: char -> bool)
    ensures exists i, j :: 0 <= i <= j <= |s| && Trim(s, sp) == s[i..j]
  {
    var t := TrimStart(s, sp);
    var r := TrimEnd(t, sp);
    var i := |s| - |t|;
    assert r == s[i..i + |r|];
  }

  /** `s.trimmingCharacters(in: .whitespaces)` in Swift. */
  function SwiftTrim(s: string): string {
    Trim(s, IsSwiftSpace)
  }

  /** `s.strip()` in Python. */
  function PyStrip(s: string): string {
    Trim(s, IsPySpace)
  }

  // ---------------------------------------------------------------- substrings

  /** `sub in s` for Python strings. */
  predicate ContainsSub(s: string, sub: string)
    decreases |s|
  {
    sub <= s || (s != [] && ContainsSub(s[1..], sub))
  }

  // ---------------------------------------------------------------- decimal integers

  predicate IsDigit(c: char) {
    '0' <= c <= '9'
  }

  function DigitChar(d: nat): (c: char)
    requires d < 10
    ensures IsDigit(c) && c as int - '0' as int == d
  {
    (d + '0' as int) as char
  }

  /** The shortest decimal spelling of `n`. */
  function NatToDigits(n: nat): (r: string)
    ensures |r| >= 1 && forall k :: 0 <= k < |r| ==> IsDigit(r[k])
    decreases n
  {
    if n < 10 then [DigitChar(n)] else NatToDigits(n / 10) + [DigitChar(n % 10)]
  }

  /** Python's `str(i)` and Swift's `"\(i)"` for an integer. */
  function IntToString(i: int): string {
    if i < 0 then "-" + NatToDigits(-i) else NatToDigits(i)
  }

  predicate AllDigits(s: string) {
    forall k :: 0 <= k < |s| ==> IsDigit(s[k])
  }

  /** The value of a string of decimal digits. */
  function DigitsValue(s: string): nat
    requires AllDigits(s)
    decreases |s|
  {
    if s == [] then 0 else DigitsValue(s[..|s| - 1]) * 10 + (s[|s| - 1] as int - '0' as int)
  }

  lemma {:induction false} DigitsValueOfNat(n: nat)
    ensures DigitsValue(NatToDigits(n)) == n
    decreases n
  {
    var r := NatToDigits(n);
    if n >= 10 {
      DigitsValueOfNat(n / 10);
      assert r[..|r| - 1] == NatToDigits(n / 10);
    }
  }

  /** An optional sign followed by one or more ASCII digits, with no range limit. */
  function ParseDecimal(s: string): Option<int> {
    if s == [] then None
    else if s[0] == '-' || s[0] == '+' then
      if |s| > 1 && AllDigits(s[1..]) then
        var magnitude: int := DigitsValue(s[1..]);
        Some(if s[0] == '-' then -magnitude else magnitude)
      else None
    else if AllDigits(s) then Some(DigitsValue(s))
    else None
  }

  /** Printing an integer and parsing it back gives the same integer. */
  lemma ParseDecimalOfIntToString(i: int)
    ensures ParseDecimal(IntToString(i)) == Some(i)
  {
    var t := IntToString(i);
    if i < 0 {
      var d := NatToDigits(-i);
      DigitsValueOfNat(-i);
      assert t[0] == '-' && t[1..] == d && AllDigits(d);
    } else {
      var d := NatToDigits(i);
      DigitsValueOfNat(i);
      assert t == d && IsDigit(t[0]) && AllDigits(d);
    }
  }

  const INT64_MIN: int := -0x8000_0000_0000_0000
  const INT64_MAX: int := 0x7FFF_FFFF_FFFF_FFFF

  /** Swift's `Int(s)` on a 64-bit platform: a decimal literal in range, or nil. */
  function SwiftParseInt(s: string): (r: Option<int>)
    ensures r.Some? ==> INT64_MIN <= r.value <= INT64_MAX
  {
    match ParseDecimal(s)
    case Some(v) => if INT64_MIN <= v <= INT64_MAX then Some(v) else None
    case None => None
  }

  /** Every 64-bit integer survives printing and Swift's `Int(_:)`. */
  lemma SwiftParseIntRoundTrip(i: int)
    requires INT64_MIN <= i <= INT64_MAX
    ensures SwiftParseInt(IntToString(i)) == Some(i)
  {
    ParseDecimalOfIntToString(i);
  }

  /**
   * Python's `int(s)` for a string, restricted to ASCII digits: surrounding
   * whitespace is ignored and single underscores may separate digits.
   * None stands for the ValueError Python raises.
   */
  function PyParseInt(s: string): Option<int> {
    var t := PyStrip(s);
    if t != [] && (t[0] == '-' || t[0] == '+') then
      match PyDigits(t[1..])
      case Some(v) => var magnitude: int := v; Some(if t[0] == '-' then -magnitude else magnitude)
      case None => None
    else PyDigits(t)
  }

  /** Digits with single underscores between them (PEP 515), no sign. */
  function PyDigits(s: string): Option<nat> {
    var d := Erase(s);
    if s != [] && IsDigit(s[0]) && IsDigit(s[|s| - 1]) && UnderscoresSingle(s) && AllDigits(d)
    then Some(DigitsValue(d)) else None
  }

  predicate UnderscoresSingle(s: string) {
    forall k :: 0 <= k < |s| - 1 ==> !(s[k] == '_' && s[k + 1] == '_')
  }

  /** The string without its underscores. */
  function Erase(s: string): (r: string)
    ensures AllDigits(s) ==> r == s
  {
    if s == [] then [] else (if s[0] == '_' then [] else [s[0]]) + Erase(s[1..])
  }

  /** Printing an integer and reading it back with Python's `int` gives the same integer. */
  lemma PyParseIntRoundTrip(i: int)
    ensures PyParseInt(IntToString(i)) == Some(i)
  {
    var s := IntToString(i);
    var n: nat := if i < 0 then -i else i;
    var d := NatToDigits(n);
    DigitsValueOfNat(n);
    PyDigitsOfDigits(d);
    if i < 0 {
      assert s[1..] == d && s[|s| - 1] == d[|d| - 1];
      PyParseMinus(s, n);
    } else {
      PyParseNonNegative(d);
    }
  }

  lemma PyParseMinus(s: string, v: nat)
    requires s != [] && s[0] == '-' && IsDigit(s[|s| - 1])
    requires PyDigits(s[1..]) == Some(v)
    ensures PyParseInt(s) == Some(-(v as int))
  {
    PyStripNoSpace(s);
  }

  lemma PyParseNonNegative(d: string)
    requires d != [] && AllDigits(d)
    ensures PyParseInt(d) == Some(DigitsValue(d))
  {
    PyStripNoSpace(d);
    assert IsDigit(d[0]);
    PyDigitsOfDigits(d);
  }

  lemma PyStripNoSpace(s: string)
    requires s != [] && (s[0] == '-' || IsDigit(s[0])) && IsDigit(s[|s| - 1])
    ensures PyStrip(s) == s
  {
    assert !IsPySpace(s[0]) && !IsPySpace(s[|s| - 1]);
    TrimStartNothing(s, IsPySpace);
    TrimEndNothing(s, IsPySpace);
  }

  lemma TrimStartNothing(s: string, sp: char -> bool)
    requires s == [] || !sp(s[0])
    ensures TrimStart(s, sp) == s
  {
  }

  lemma TrimEndNothing(s: string, sp: char -> bool)
    requires s == [] || !sp(s[|s| - 1])
    ensures TrimEnd(s, sp) == s
  {
  }

  lemma PyDigitsOfDigits(d: string)
    requires d != [] && AllDigits(d)
    ensures PyDigits(d) == Some(DigitsValue(d))
  {
    assert Erase(d) == d;
    assert UnderscoresSingle(d);
  }

  // ---------------------------------------------------------------- ordering

  /** Lexicographic order on character codes: `a < b` for strings. */
  predicate LexLess(a: string, b: string)
    decreases |a|
  {
    if a == [] then b != []
    else if b == [] then false
    else if a[0] != b[0] then a[0] < b[0]
    else LexLess(a[1..], b[1..])
  }

  lemma {:induction false} LexIrreflexive(a: string)
    ensures !LexLess(a, a)
    decreases |a|
  {
    if a != [] { LexIrreflexive(a[1..]); }
  }

  lemma {:induction false} LexTransitive(a: string, b: string, c: string)
    requires LexLess(a, b) && LexLess(b, c)
    ensures LexLess(a, c)
    decreases |a|
  {
    if a != [] && b != [] && c != [] && a[0] == b[0] && b[0] == c[0] {
      LexTransitive(a[1..], b[1..], c[1..]);
    }
  }

  lemma {:induction false} LexTotal(a: string, b: string)
    ensures a == b || LexLess(a, b) || LexLess(b, a)
    decreases |a|
  {
    if a != [] && b != [] && a[0] == b[0] {
      LexTotal(a[1..], b[1..]);
      if a[1..] == b[1..] {
        assert a == [a[0]] + a[1..] && b == [b[0]] + b[1..];
      }
    }
  }

  /** Strictly increasing, hence free of duplicates. */
  predicate StrictlySorted(s: seq<string>) {
    forall i, j :: 0 <= i < j < |s| ==> LexLess(s[i], s[j])
  }
}

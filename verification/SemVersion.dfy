/** Version triples: printing, and the lenient parser that strips a `v` prefix, surrounding
    whitespace, and pre-release and build suffixes. */
module SemVersion {
  import opened Types

  const U32_MAX: nat := 0xFFFF_FFFF

  type U32 = x: nat | x <= U32_MAX

  datatype SemVer = SemVer(major: U32, minor: U32, patch: U32)

  datatype ParseError = Shape(input: string) | Component(input: string, component: string)

  datatype Result<T> = Ok(value: T) | Err(error: ParseError)

  // ----- decimal numbers -----

  function DigitChar(d: nat): char
    requires d < 10
  {
    "0123456789"[d]
  }

  predicate IsDigit(c: char) {
    '0' <= c <= '9'
  }

  function Decimal(n: nat): string {
    if n < 10 then [DigitChar(n)] else Decimal(n / 10) + [DigitChar(n % 10)]
  }

  predicate AllDigits(s: string) {
    forall i :: 0 <= i < |s| ==> IsDigit(s[i])
  }

  function ValueOf(s: string): nat
    requires AllDigits(s)
  {
    if s == [] then 0 else ValueOf(s[..|s| - 1]) * 10 + (s[|s| - 1] as int - '0' as int)
  }

  /** Unsigned 32-bit parsing: an optional plus sign, at least one digit, no overflow. */
  function ParseU32(s: string): Option<U32> {
    var digits := if s != [] && s[0] == '+' then s[1..] else s;
    if digits != [] && AllDigits(digits) && ValueOf(digits) <= U32_MAX then Some(ValueOf(digits)) else None
  }

  lemma DigitCharValue(d: nat)
    requires d < 10
    ensures IsDigit(DigitChar(d)) && DigitChar(d) as int - '0' as int == d
  {
  }

  lemma ValueSnoc(s: string, c: char)
    requires AllDigits(s) && IsDigit(c)
    ensures AllDigits(s + [c]) && ValueOf(s + [c]) == ValueOf(s) * 10 + (c as int - '0' as int)
  {
    assert (s + [c])[..|s|] == s;
  }

  lemma {:induction false} DecimalDigits(n: nat)
    ensures Decimal(n) != [] && AllDigits(Decimal(n)) && ValueOf(Decimal(n)) == n
  {
    DigitCharValue(n % 10);
    if n < 10 {
      ValueSnoc([], DigitChar(n));
      assert [] + [DigitChar(n)] == [DigitChar(n)];
    } else {
      DecimalDigits(n / 10);
      ValueSnoc(Decimal(n / 10), DigitChar(n % 10));
    }
  }

  lemma ParseDecimal(n: U32)
    ensures ParseU32(Decimal(n)) == Some(n)
  {
    DecimalDigits(n);
    assert IsDigit(Decimal(n)[0]);
  }

  // ----- strings -----

  /** Characters that trimming removes. */
  predicate IsWhitespace(c: char) {
    var x := c as int;
    9 <= x <= 13 || x == 0x20 || x == 0x85 || x == 0xA0 || x == 0x1680 || 0x2000 <= x <= 0x200A
    || x == 0x2028 || x == 0x2029 || x == 0x202F || x == 0x205F || x == 0x3000
  }

  /** They are the 25 characters with the Unicode property White_Space. */
  const WHITE_SPACE: string := "\t\n\U{0B}\U{0C}\r \U{85}\U{A0}\U{1680}"
    + "\U{2000}\U{2001}\U{2002}\U{2003}\U{2004}\U{2005}\U{2006}\U{2007}\U{2008}\U{2009}\U{200A}"
    + "\U{2028}\U{2029}\U{202F}\U{205F}\U{3000}"

  lemma WhitespaceExactly(c: char)
    ensures IsWhitespace(c) <==> c in WHITE_SPACE
  {
  }

  predicate Blank(s: string) {
    forall i :: 0 <= i < |s| ==> IsWhitespace(s[i])
  }

  function TrimStart(s: string): string {
    if s != [] && IsWhitespace(s[0]) then TrimStart(s[1..]) else s
  }

  function TrimEnd(s: string): string {
    if s != [] && IsWhitespace(s[|s| - 1]) then TrimEnd(s[..|s| - 1]) else s
  }

  function Trim(s: string): string {
    TrimEnd(TrimStart(s))
  }

  /** The parts before and after the first separator. */
  function SplitOnce(s: string, c: char): Option<(string, string)> {
    if s == [] then None
    else if s[0] == c then Some(("", s[1..]))
    else match SplitOnce(s[1..], c)
      case None => None
      case Some((a, b)) => Some(([s[0]] + a, b))
  }

  /** Everything before the first separator, or all of it. */
  function Before(s: string, c: char): string {
    if s == [] || s[0] == c then [] else [s[0]] + Before(s[1..], c)
  }

  // ----- the version -----

  function Display(v: SemVer): string {
    Decimal(v.major) + "." + Decimal(v.minor) + "." + Decimal(v.patch)
  }

  function ParseSemVer(raw: string): Result<SemVer> {
    var trimmed := Trim(raw);
    var stripped := if trimmed != [] && trimmed[0] == 'v' then trimmed[1..] else trimmed;
    match SplitOnce(stripped, '.')
    case None => Err(Shape(raw))
    case Some((major, rest)) =>
      match SplitOnce(rest, '.')
      case None => Err(Shape(raw))
      case Some((minor, patchRest)) => ParseParts(raw, major, minor, Before(Before(patchRest, '+'), '-'))
  }

  function ParseParts(raw: string, major: string, minor: string, patch: string): Result<SemVer> {
    match ParseU32(major)
    case None => Err(Component(raw, major))
    case Some(x) =>
      match ParseU32(minor)
      case None => Err(Component(raw, minor))
      case Some(y) =>
        match ParseU32(patch)
        case None => Err(Component(raw, patch))
        case Some(z) => Ok(SemVer(x, y, z))
  }

  // ----- the round trip -----

  lemma {:induction false} SplitOnceAt(a: string, c: char, b: string)
    requires c !in a
    ensures SplitOnce(a + [c] + b, c) == Some((a, b))
  {
    var s := a + [c] + b;
    if a == [] {
      assert s[1..] == b;
    } else {
      assert s[1..] == a[1..] + [c] + b;
      SplitOnceAt(a[1..], c, b);
      assert a == [a[0]] + a[1..];
    }
  }

  /** A front part without the separator is kept whole. */
  lemma {:induction false} BeforeConcat(a: string, b: string, c: char)
    requires c !in a
    ensures Before(a + b, c) == a + Before(b, c)
  {
    if a == [] {
      assert a + b == b;
    } else {
      assert (a + b)[1..] == a[1..] + b;
      BeforeConcat(a[1..], b, c);
      assert a == [a[0]] + a[1..];
    }
  }

  lemma {:induction false} TrimStartSkips(pad: string, s: string)
    requires Blank(pad) && s != [] && !IsWhitespace(s[0])
    ensures TrimStart(pad + s) == s
  {
    if pad == [] {
      assert pad + s == s;
    } else {
      assert (pad + s)[1..] == pad[1..] + s;
      TrimStartSkips(pad[1..], s);
    }
  }

  lemma {:induction false} TrimEndKeeps(a: string, b: string)
    requires a != [] && !IsWhitespace(a[|a| - 1])
    ensures TrimEnd(a + b) == a + TrimEnd(b)
  {
    var s := a + b;
    if b == [] {
      assert s == a;
    } else if IsWhitespace(b[|b| - 1]) {
      assert s[..|s| - 1] == a + b[..|b| - 1];
      TrimEndKeeps(a, b[..|b| - 1]);
    }
  }

  lemma {:induction false} TrimEndDropsAll(pad: string)
    requires Blank(pad)
    ensures TrimEnd(pad) == []
  {
    if pad != [] {
      TrimEndDropsAll(pad[..|pad| - 1]);
    }
  }

  /** Nothing, or a pre-release or build part. */
  predicate IsSuffix(s: string) {
    s == [] || s[0] == '-' || s[0] == '+'
  }

  lemma TrimmedSuffix(suffix: string, pad: string)
    requires IsSuffix(suffix) && Blank(pad)
    ensures IsSuffix(TrimEnd(suffix + pad))
  {
    if suffix == [] {
      assert suffix + pad == pad;
      TrimEndDropsAll(pad);
    } else {
      var rest := suffix[1..] + pad;
      assert suffix + pad == [suffix[0]] + rest;
      TrimEndKeeps([suffix[0]], rest);
    }
  }

  lemma SuffixStripped(s: string)
    requires IsSuffix(s)
    ensures Before(Before(s, '+'), '-') == []
  {
    if s != [] && s[0] == '-' {
      var rest := s[1..];
      assert s == ['-'] + rest;
      BeforeConcat(['-'], rest, '+');
    }
  }

  lemma DecimalHas(n: nat, c: char)
    requires !IsDigit(c)
    ensures c !in Decimal(n)
  {
    DecimalDigits(n);
  }

  lemma PatchParses(patch: U32, tail: string)
    requires IsSuffix(tail)
    ensures Before(Before(Decimal(patch) + tail, '+'), '-') == Decimal(patch)
  {
    var d := Decimal(patch);
    DecimalHas(patch, '+');
    DecimalHas(patch, '-');
    BeforeConcat(d, tail, '+');
    BeforeConcat(d, Before(tail, '+'), '-');
    SuffixStripped(tail);
    assert d + [] == d;
  }

  lemma SplitTriple(v: SemVer, tail: string)
    ensures SplitOnce(Display(v) + tail, '.')
            == Some((Decimal(v.major), Decimal(v.minor) + "." + (Decimal(v.patch) + tail)))
    ensures SplitOnce(Decimal(v.minor) + "." + (Decimal(v.patch) + tail), '.')
            == Some((Decimal(v.minor), Decimal(v.patch) + tail))
  {
    var a, b, c := Decimal(v.major), Decimal(v.minor), Decimal(v.patch);
    DecimalHas(v.major, '.');
    DecimalHas(v.minor, '.');
    assert Display(v) + tail == a + ['.'] + (b + ['.'] + (c + tail));
    SplitOnceAt(a, '.', b + ['.'] + (c + tail));
    SplitOnceAt(b, '.', c + tail);
  }

  lemma DisplayEnds(v: SemVer, prefix: string)
    requires prefix == "" || prefix == "v"
    ensures var s := prefix + Display(v);
            && !IsWhitespace(s[0]) && !IsWhitespace(s[|s| - 1])
            && s[0] == (if prefix == "v" then 'v' else Decimal(v.major)[0])
            && IsDigit(Decimal(v.major)[0])
  {
    DecimalDigits(v.major);
    DecimalDigits(v.patch);
    var s, d := prefix + Display(v), Decimal(v.patch);
    assert IsDigit(Decimal(v.major)[0]) && IsDigit(d[|d| - 1]);
    assert s[|s| - 1] == d[|d| - 1];
  }

  lemma TrimsTo(body: string, suffix: string, left: string, right: string)
    requires body != [] && !IsWhitespace(body[0]) && !IsWhitespace(body[|body| - 1]) && Blank(left)
    ensures Trim(left + body + suffix + right) == body + TrimEnd(suffix + right)
  {
    var rest := body + (suffix + right);
    assert left + body + suffix + right == left + rest;
    TrimStartSkips(left, rest);
    TrimEndKeeps(body, suffix + right);
  }

  lemma ParseTrimmed(raw: string, v: SemVer, prefix: string, tail: string)
    requires (prefix == "" || prefix == "v") && IsSuffix(tail) && Trim(raw) == prefix + Display(v) + tail
    ensures ParseSemVer(raw) == Ok(v)
  {
    DisplayEnds(v, prefix);
    var trimmed := prefix + Display(v) + tail;
    assert (if trimmed[0] == 'v' then trimmed[1..] else trimmed) == Display(v) + tail;
    SplitTriple(v, tail);
    PatchParses(v.patch, tail);
    ParseDecimal(v.major);
    ParseDecimal(v.minor);
    ParseDecimal(v.patch);
  }

  /** Parsing inverts display for every triple, with or without a `v`, with any pre-release or
      build suffix, and inside any whitespace. */
  lemma ParseInvertsDisplay(v: SemVer, prefix: string, suffix: string, left: string, right: string)
    requires (prefix == "" || prefix == "v") && IsSuffix(suffix) && Blank(left) && Blank(right)
    ensures ParseSemVer(left + (prefix + Display(v)) + suffix + right) == Ok(v)
  {
    DisplayEnds(v, prefix);
    TrimsTo(prefix + Display(v), suffix, left, right);
    TrimmedSuffix(suffix, right);
    ParseTrimmed(left + (prefix + Display(v)) + suffix + right, v, prefix, TrimEnd(suffix + right));
  }

  // ----- every input -----

  /** An unsigned 32-bit number as text. */
  predicate IsNumeral(s: string) {
    var digits := if s != [] && s[0] == '+' then s[1..] else s;
    digits != [] && AllDigits(digits) && ValueOf(digits) < 0x1_0000_0000
  }

  function Dots(s: string): nat {
    if s == [] then 0 else Dots(s[1..]) + (if s[0] == '.' then 1 else 0)
  }

  lemma {:induction false} SplitOnceExactly(s: string, c: char)
    ensures match SplitOnce(s, c)
            case None => c !in s
            case Some((a, b)) => c !in a && s == a + [c] + b
  {
    if s != [] && s[0] != c {
      SplitOnceExactly(s[1..], c);
      assert s == [s[0]] + s[1..];
    }
  }

  lemma {:induction false} NoDots(s: string)
    ensures Dots(s) == 0 <==> '.' !in s
  {
    if s != [] {
      NoDots(s[1..]);
      assert s == [s[0]] + s[1..];
    }
  }

  lemma {:induction false} DotsConcat(a: string, b: string)
    ensures Dots(a + b) == Dots(a) + Dots(b)
  {
    if a == [] {
      assert a + b == b;
    } else {
      assert (a + b)[1..] == a[1..] + b;
      DotsConcat(a[1..], b);
    }
  }

  lemma SplitDots(s: string)
    ensures match SplitOnce(s, '.')
            case None => Dots(s) == 0
            case Some((a, b)) => Dots(a) == 0 && Dots(s) == Dots(b) + 1
  {
    SplitOnceExactly(s, '.');
    match SplitOnce(s, '.')
    case None => NoDots(s);
    case Some((a, b)) =>
      NoDots(a);
      DotsConcat(a + ['.'], b);
      DotsConcat(a, ['.']);
      assert ['.'][1..] == [];
      assert Dots(['.']) == 1;
  }

  /** The text that is split: without outer whitespace and without one `v`. */
  function Core(raw: string): string {
    var trimmed := Trim(raw);
    if trimmed != [] && trimmed[0] == 'v' then trimmed[1..] else trimmed
  }

  lemma {:induction false} TrimStartExactly(s: string)
    ensures exists pad :: Blank(pad) && s == pad + TrimStart(s)
    ensures TrimStart(s) != [] ==> !IsWhitespace(TrimStart(s)[0])
  {
    if s != [] && IsWhitespace(s[0]) {
      TrimStartExactly(s[1..]);
      var pad :| Blank(pad) && s[1..] == pad + TrimStart(s[1..]);
      assert Blank([s[0]] + pad) && s == ([s[0]] + pad) + TrimStart(s);
    } else {
      assert Blank("") && s == "" + TrimStart(s);
    }
  }

  lemma {:induction false} TrimEndExactly(s: string)
    ensures exists pad :: Blank(pad) && s == TrimEnd(s) + pad
    ensures TrimEnd(s) != [] ==> TrimEnd(s)[0] == s[0] && !IsWhitespace(TrimEnd(s)[|TrimEnd(s)| - 1])
  {
    if s != [] && IsWhitespace(s[|s| - 1]) {
      var n := |s| - 1;
      TrimEndExactly(s[..n]);
      var pad :| Blank(pad) && s[..n] == TrimEnd(s[..n]) + pad;
      assert Blank(pad + [s[n]]) && s == TrimEnd(s) + (pad + [s[n]]);
    } else {
      assert Blank("") && s == TrimEnd(s) + "";
    }
  }

  /** Every input is its core between whitespace, behind at most one `v` that is not part of it;
      between the whitespace there is none at either end. */
  lemma CoreExactly(raw: string)
    ensures exists left, v, right ::
              && raw == left + (v + Core(raw)) + right && Blank(left) && Blank(right)
              && (v == "v" || (v == "" && (Core(raw) == "" || Core(raw)[0] != 'v')))
              && var trimmed := v + Core(raw);
                 (trimmed != [] ==> !IsWhitespace(trimmed[0]) && !IsWhitespace(trimmed[|trimmed| - 1]))
  {
    TrimStartExactly(raw);
    TrimEndExactly(TrimStart(raw));
    var left :| Blank(left) && raw == left + TrimStart(raw);
    var right :| Blank(right) && TrimStart(raw) == Trim(raw) + right;
    var trimmed := Trim(raw);
    var v := if trimmed != [] && trimmed[0] == 'v' then "v" else "";
    assert v + Core(raw) == trimmed;
    assert raw == left + (v + Core(raw)) + right;
  }

  /** With fewer than two dots there is no triple, and that is the error. */
  lemma TooFewParts(raw: string)
    ensures Dots(Core(raw)) < 2 <==> ParseSemVer(raw) == Err(Shape(raw))
  {
    SplitDots(Core(raw));
    match SplitOnce(Core(raw), '.')
    case None =>
    case Some((_, rest)) => SplitDots(rest);
  }

  /** A front part that stops at the first plus or minus sign. */
  lemma {:induction false} BeforeExactly(s: string, c: char)
    ensures c !in Before(s, c) && Before(s, c) <= s && (Before(s, c) == s || s[|Before(s, c)|] == c)
  {
    if s != [] && s[0] != c {
      BeforeExactly(s[1..], c);
      assert s == [s[0]] + s[1..];
    }
  }

  lemma NumeralsParse(s: string)
    ensures IsNumeral(s) <==> ParseU32(s).Some?
  {
  }

  /** Any other input is three parts: major and minor without a dot, and a patch that ends at the
      first plus or minus sign. They parse exactly when all three are numbers, in that order, and
      otherwise the first part that is none is named. */
  lemma ThreeParts(raw: string, major: string, minor: string, patch: string, tail: string)
    requires Core(raw) == major + "." + minor + "." + patch + tail
    requires '.' !in major && '.' !in minor && '+' !in patch && '-' !in patch && IsSuffix(tail)
    ensures IsNumeral(major) == ParseU32(major).Some? && IsNumeral(minor) == ParseU32(minor).Some?
    ensures IsNumeral(patch) == ParseU32(patch).Some?
    ensures var r := ParseSemVer(raw);
            if !IsNumeral(major) then r == Err(Component(raw, major))
            else if !IsNumeral(minor) then r == Err(Component(raw, minor))
            else if !IsNumeral(patch) then r == Err(Component(raw, patch))
            else r == Ok(SemVer(ParseU32(major).value, ParseU32(minor).value, ParseU32(patch).value))
  {
    assert Core(raw) == major + ['.'] + (minor + ['.'] + (patch + tail));
    SplitOnceAt(major, '.', minor + ['.'] + (patch + tail));
    SplitOnceAt(minor, '.', patch + tail);
    BeforeConcat(patch, tail, '+');
    BeforeConcat(patch, Before(tail, '+'), '-');
    SuffixStripped(tail);
    assert patch + [] == patch;
    NumeralsParse(major);
    NumeralsParse(minor);
    NumeralsParse(patch);
  }

  /** The value of a numeral, digit by digit from the left. */
  lemma NumeralValue(s: string, c: char)
    requires s != [] && AllDigits(s) && IsDigit(c) && ParseU32(s).Some? && ParseU32(s + [c]).Some?
    ensures ParseU32(s + [c]).value == 10 * ParseU32(s).value + (c as int - 48)
  {
    ValueSnoc(s, c);
    assert (s + [c])[0] == s[0];
  }

  /** Single digits, and the examples of a well-formed version and two malformed ones. */
  lemma Examples()
    ensures forall d :: 0 <= d < 10 ==> ParseU32([DigitChar(d)]) == Some(d)
    ensures forall c :: IsDigit(c) <==> c in "0123456789"
    ensures ParseSemVer(" \t" + ("v" + "1.2.3") + "-rc.4+x" + "\n") == Ok(SemVer(1, 2, 3))
    ensures ParseSemVer("12.3") == Err(Shape("12.3"))
    ensures ParseSemVer("12.x.0") == Err(Component("12.x.0", "x"))
  {
    forall d | 0 <= d < 10 ensures ParseU32([DigitChar(d)]) == Some(d) {
      ParseDecimal(d);
    }
    forall c ensures IsDigit(c) <==> c in "0123456789" {
      if IsDigit(c) {
        assert "0123456789"[c as int - 48] == c;
      }
    }
    PaddedExample();
    ShortExample();
    NonNumericExample();
  }

  lemma PaddedExample()
    ensures ParseSemVer(" \t" + ("v" + "1.2.3") + "-rc.4+x" + "\n") == Ok(SemVer(1, 2, 3))
  {
    DisplayExample();
    ParseInvertsDisplay(SemVer(1, 2, 3), "v", "-rc.4+x", " \t", "\n");
  }

  lemma DisplayExample()
    ensures Display(SemVer(1, 2, 3)) == "1.2.3"
  {
    assert Decimal(1) == "1" && Decimal(2) == "2" && Decimal(3) == "3";
    assert "1" + "." + "2" + "." + "3" == "1.2.3";
  }

  lemma ShortExample()
    ensures ParseSemVer("12.3") == Err(Shape("12.3"))
  {
    NothingToTrim("12.3");
    assert "12.3" == "12" + ['.'] + "3";
    SplitOnceAt("12", '.', "3");
    SplitOnceExactly("3", '.');
  }

  lemma NonNumericExample()
    ensures ParseSemVer("12.x.0") == Err(Component("12.x.0", "x"))
  {
    NonNumericText();
    TwelveAndX();
    ThreeParts("12.x.0", "12", "x", "0", "");
  }

  lemma NonNumericText()
    ensures Core("12.x.0") == "12" + "." + "x" + "." + "0" + ""
  {
    NothingToTrim("12.x.0");
    assert "12" + "." + "x" + "." + "0" + "" == "12.x.0";
  }

  lemma TwelveAndX()
    ensures IsNumeral("12") && !IsNumeral("x")
  {
    ParseDecimal(12);
    assert Decimal(12) == Decimal(1) + ['2'] && Decimal(1) == ['1'];
    assert Decimal(12) == "12";
    NumeralsParse("12");
    assert !IsDigit("x"[0]);
  }

  lemma NothingToTrim(s: string)
    requires s != [] && !IsWhitespace(s[0]) && !IsWhitespace(s[|s| - 1])
    ensures Trim(s) == s
  {
  }

  // ----- ordering -----

  datatype Ordering = Less | Equal | Greater

  function CompareNat(a: nat, b: nat): Ordering {
    if a < b then Less else if a == b then Equal else Greater
  }

  function Compare(a: SemVer, b: SemVer): Ordering {
    if a.major != b.major then CompareNat(a.major, b.major)
    else if a.minor != b.minor then CompareNat(a.minor, b.minor)
    else CompareNat(a.patch, b.patch)
  }

  /** A version as one number: majors weigh more than any minor, minors more than any patch. */
  function Weight(v: SemVer): nat {
    (v.major * 0x1_0000_0000 + v.minor) * 0x1_0000_0000 + v.patch
  }

  /** The order of versions is the order of those numbers, so it is total, and only equal triples
      are equal. */
  lemma CompareByWeight(a: SemVer, b: SemVer)
    ensures Compare(a, b) == Less <==> Weight(a) < Weight(b)
    ensures Compare(a, b) == Greater <==> Weight(a) > Weight(b)
    ensures Compare(a, b) == Equal <==> a == b
  {
  }
}

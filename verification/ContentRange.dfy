/** Parsing the value of a Content-Range header of a body part (section 4.2 of RFC 7233), as the
    vector read does it, and the proof that it reads back every range a server can write. */
module ContentRange {
  import opened Common

  const MAX_OFFSET: int := 0x7fff_ffff_ffff_ffff

  predicate IsDigit(c: char) { '0' <= c <= '9' }

  /** White space as the C library skips it. */
  predicate IsSpace(c: char) { c == ' ' || 9 as char <= c <= 13 as char }

  function DigitValue(c: char): nat
    requires IsDigit(c)
  {
    (c as int) - ('0' as int)
  }

  /** How many leading characters satisfy `p`. */
  function Leading(s: Octets, p: char -> bool): (n: nat)
    ensures n <= |s| && (forall i | 0 <= i < n :: p(s[i])) && (n < |s| ==> !p(s[n]))
  {
    if s != [] && p(s[0]) then 1 + Leading(s[1..], p) else 0
  }

  /** The number a run of digits denotes. */
  function Number(s: Octets): nat
    requires forall i | 0 <= i < |s| :: IsDigit(s[i])
  {
    if s == [] then 0 else 10 * Number(s[..|s| - 1]) + DigitValue(s[|s| - 1])
  }

  /** The C library's signed 64-bit conversion: leading white space, a sign, digits.  The result is the
      value and how many characters it took; no digits, or a value out of range, is an error. */
  function ToInteger(s: Octets): Option<(int, nat)> {
    var w := Leading(s, IsSpace);
    var sign := if w < |s| && (s[w] == '-' || s[w] == '+') then 1 else 0;
    var n := Leading(s[w + sign..], IsDigit);
    var digits := s[w + sign..w + sign + n];
    if n == 0 then None
    else
      var v: int := if sign == 1 && s[w] == '-' then 0 - Number(digits) else Number(digits);
      if -MAX_OFFSET - 1 <= v <= MAX_OFFSET then Some((v, w + sign + n)) else None
  }

  function SkipBlanks(s: Octets): Octets {
    s[Leading(s, c => c == ' ')..]
  }

  /** The first byte and the length of the range that a header value announces. */
  function Parse(value: Octets): Option<(int, int)> {
    var unit := SkipBlanks(value);
    if |unit| < 5 || unit[..5] != "bytes" then None
    else
      var range := SkipBlanks(unit[5..]);
      match ToInteger(range)
      case None => None
      case Some((first, n)) =>
        if |range| <= n || range[n] != '-' then None
        else
          var rest := range[n + 1..];
          match ToInteger(rest)
          case None => None
          case Some((last, m)) =>
            if |rest| <= m || rest[m] != '/' then None
            else if last + 1 - first < 0 || last + 1 - first > MAX_OFFSET then None
            else Some((first, last + 1 - first))
  }

  function Lower(c: char): char {
    if 'A' <= c <= 'Z' then ((c as int) + 32) as char else c
  }

  /** Whether a header name is Content-Range, in any case. */
  predicate IsContentRange(name: Octets) {
    |name| == 13 && forall i | 0 <= i < 13 :: Lower(name[i]) == "content-range"[i]
  }

  // ---- What is accepted.

  predicate All(s: Octets, p: char -> bool) {
    forall i | 0 <= i < |s| :: p(s[i])
  }

  /** White space, a sign or none, and digits that denote `v`, which has 64 bits. */
  predicate Denotes(space: Octets, sign: Octets, digits: Octets, v: int) {
    && All(space, IsSpace) && All(digits, IsDigit) && digits != []
    && (sign == "" || sign == "+" || sign == "-")
    && v == (if sign == "-" then 0 - Number(digits) else Number(digits))
    && -MAX_OFFSET - 1 <= v <= MAX_OFFSET
  }

  ghost predicate IsInteger(x: Octets, v: int) {
    exists space, sign, digits :: x == space + (sign + digits) && Denotes(space, sign, digits, v)
  }

  lemma IntegerSound(s: Octets)
    requires ToInteger(s).Some?
    ensures var (v, n) := ToInteger(s).value; n <= |s| && IsInteger(s[..n], v)
  {
    var (v, n) := ToInteger(s).value;
    var w := Leading(s, IsSpace);
    var k := if w < |s| && (s[w] == '-' || s[w] == '+') then 1 else 0;
    var space, sign, digits := s[..w], s[w..w + k], s[w + k..n];
    assert s[..n] == space + (sign + digits);
    assert All(digits, IsDigit) by {
      forall i | 0 <= i < |digits| ensures IsDigit(digits[i]) { assert digits[i] == s[w + k..][i]; }
    }
    assert Denotes(space, sign, digits, v);
  }

  lemma SkipSound(s: Octets) returns (blanks: Octets)
    ensures s == blanks + SkipBlanks(s) && All(blanks, c => c == ' ')
  {
    blanks := s[..Leading(s, c => c == ' ')];
  }

  /** An integer and the character after it. */
  lemma CutSound(s: Octets, c: char) returns (x: Octets, rest: Octets)
    requires ToInteger(s).Some? && ToInteger(s).value.1 < |s| && s[ToInteger(s).value.1] == c
    ensures var (v, n) := ToInteger(s).value; IsInteger(x, v) && s == x + ([c] + rest) && rest == s[n + 1..]
  {
    IntegerSound(s);
    hide ToInteger, IsInteger;
    var n := ToInteger(s).value.1;
    x, rest := s[..n], s[n + 1..];
  }

  /** Only values of this form are read as a range: blanks, the unit, blanks, the first and the last byte with a
      dash between them, and a slash. */
  lemma ParseSound(value: Octets) returns (before: Octets, gap: Octets, x: Octets, y: Octets, rest: Octets)
    requires Parse(value).Some?
    ensures value == before + ("bytes" + (gap + (x + ("-" + (y + ("/" + rest))))))
    ensures All(before, c => c == ' ') && All(gap, c => c == ' ')
    ensures var (first, length) := Parse(value).value;
            IsInteger(x, first) && IsInteger(y, first + length - 1) && 0 <= length <= MAX_OFFSET
  {
    hide ToInteger, IsInteger, SkipBlanks, All;
    var unit := SkipBlanks(value);
    before := SkipSound(value);
    assert unit == "bytes" + unit[5..];
    var range := SkipBlanks(unit[5..]);
    gap := SkipSound(unit[5..]);
    var tail;
    x, tail := CutSound(range, '-');
    y, rest := CutSound(tail, '/');
  }

  /** Each letter of the name is the one of Content-Range, small or capital. */
  predicate SpellsContentRange(name: Octets) {
    |name| == 13 && forall i | 0 <= i < 13 :: name[i] == "content-range"[i] || name[i] == "CONTENT-RANGE"[i]
  }

  /** These names are recognised, and no others. */
  lemma NameExactly(name: Octets)
    ensures IsContentRange(name) <==> SpellsContentRange(name)
  {
    var small, capital := "content-range", "CONTENT-RANGE";
    if |name| == 13 {
      forall i | 0 <= i < 13 ensures Lower(name[i]) == small[i] <==> name[i] == small[i] || name[i] == capital[i] {
        LetterExactly(name[i], small[i], capital[i]);
      }
    }
  }

  lemma LetterExactly(c: char, small: char, capital: char)
    requires if 'a' <= small <= 'z' then capital as int + 32 == small as int else capital == small && !('A' <= small <= 'Z')
    ensures Lower(c) == small <==> c == small || c == capital
  {
  }

  // ---- What a server writes.

  /** Decimal notation. */
  function Decimal(n: nat): (s: Octets)
    ensures |s| > 0 && forall i | 0 <= i < |s| :: IsDigit(s[i])
  {
    var last := [(('0' as int) + n % 10) as char];
    if n < 10 then last else Decimal(n / 10) + last
  }

  lemma {:induction false} DecimalReads(n: nat)
    ensures Number(Decimal(n)) == n
  {
    var s := Decimal(n);
    var last := [(('0' as int) + n % 10) as char];
    if n < 10 {
      assert s == last && s[..0] == [];
    } else {
      DecimalReads(n / 10);
      assert s[..|s| - 1] == Decimal(n / 10);
    }
  }

  lemma {:induction false} LeadingExact(s: Octets, t: Octets, p: char -> bool)
    requires forall i | 0 <= i < |s| :: p(s[i])
    requires t != [] ==> !p(t[0])
    ensures Leading(s + t, p) == |s|
  {
    if s == [] {
      assert s + t == t;
    } else {
      assert (s + t)[1..] == s[1..] + t;
      LeadingExact(s[1..], t, p);
    }
  }

  lemma DigitsConvert(d: Octets, t: Octets)
    requires d != [] && All(d, IsDigit) && Number(d) <= MAX_OFFSET && (t != [] ==> !IsDigit(t[0]))
    ensures ToInteger(d + t) == Some((Number(d), |d|))
  {
    var s := d + t;
    LeadingExact(d, t, IsDigit);
    hide Number;
    assert s[0] == d[0] && IsDigit(s[0]);
    assert Leading(s, IsSpace) == 0;
    assert s[0..] == s && s[0..|d|] == d;
    hide Leading, All;
  }

  /** Decimal notation is read back, whatever non-digit follows it. */
  lemma DecimalIntegers(n: nat, t: Octets)
    requires n <= MAX_OFFSET && t != [] && !IsDigit(t[0])
    ensures ToInteger(Decimal(n) + t) == Some((n, |Decimal(n)|))
  {
    DecimalReads(n);
    hide ToInteger, Number;
    DigitsConvert(Decimal(n), t);
  }

  /** The header value announcing bytes `first` to `last` of an object of `total` bytes. */
  function Announce(first: nat, last: nat, total: nat): Octets {
    " bytes " + (Decimal(first) + ("-" + (Decimal(last) + ("/" + Decimal(total)))))
  }

  lemma SkipsOneBlank(s: Octets)
    requires s != [] && s[0] != ' '
    ensures SkipBlanks(" " + s) == s
  {
    LeadingExact(" ", s, c => c == ' ');
  }

  /** Reading a range once the unit and the blanks are gone. */
  lemma RangeParses(range: Octets, first: nat, n: nat, rest: Octets, last: nat, m: nat)
    requires range != [] && range[0] != ' '
    requires ToInteger(range) == Some((first, n)) && n < |range| && range[n] == '-' && range[n + 1..] == rest
    requires ToInteger(rest) == Some((last, m)) && m < |rest| && rest[m] == '/'
    requires first <= last < MAX_OFFSET
    ensures Parse(" " + ("bytes" + (" " + range))) == Some((first, last + 1 - first))
  {
    hide ToInteger, SkipBlanks;
    var unit := "bytes" + (" " + range);
    assert unit[0] == 'b' && unit[..5] == "bytes" && unit[5..] == " " + range;
    SkipsOneBlank(unit);
    SkipsOneBlank(range);
  }

  /** Every announcement is read back as the range it announces. */
  lemma AnnounceParses(first: nat, last: nat, total: nat)
    requires first <= last < MAX_OFFSET
    ensures Parse(Announce(first, last, total)) == Some((first, last + 1 - first))
  {
    hide ToInteger, SkipBlanks, Parse, Decimal;
    var tail := "/" + Decimal(total);
    var rest := Decimal(last) + tail;
    var range := Decimal(first) + ("-" + rest);
    DecimalIntegers(first, "-" + rest);
    DecimalIntegers(last, tail);
    assert range[|Decimal(first)| + 1..] == rest;
    assert IsDigit(range[0]);
    RangeParses(range, first, |Decimal(first)|, rest, last, |Decimal(last)|);
    assert Announce(first, last, total) == " " + ("bytes" + (" " + range));
  }
}

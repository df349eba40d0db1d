// Decimal numbers as the program prints and parses them, and the log file names
// built from them.
module Text {

  const MAX_INT: int := 0x7fff_ffff_ffff_ffff

  predicate IsDigit(c: char) {
    '0' <= c <= '9'
  }

  predicate AllDigits(s: string) {
    forall i :: 0 <= i < |s| ==> IsDigit(s[i])
  }

  function DigitValue(c: char): (v: nat)
    requires IsDigit(c)
    ensures v < 10
  {
    c as int - '0' as int
  }

  function Digit(d: nat): (c: char)
    requires d < 10
    ensures IsDigit(c) && DigitValue(c) == d
  {
    ('0' as int + d) as char
  }

  function Value(s: string): nat
    requires AllDigits(s)
  {
    if s == [] then 0 else 10 * Value(s[..|s| - 1]) + DigitValue(s[|s| - 1])
  }

  // The %d format of a natural number.
  function Decimal(n: nat): string {
    if n < 10 then [Digit(n)] else Decimal(n / 10) + [Digit(n % 10)]
  }

  lemma {:induction false} DecimalValue(n: nat)
    ensures Decimal(n) != [] && AllDigits(Decimal(n)) && Value(Decimal(n)) == n
  {
    if n >= 10 {
      DecimalValue(n / 10);
      var s := Decimal(n);
      assert s[..|s| - 1] == Decimal(n / 10);
    } else {
      assert Decimal(n)[..0] == [];
    }
  }

  // The result of strconv.Atoi: a number; text that is not one, read as 0; or a
  // number outside the 64-bit range, read as the bound it exceeds.
  datatype Parsed = Number(value: int) | Malformed | OutOfRange(bound: int)

  function Atoi(s: string): Parsed {
    var negative := s != [] && s[0] == '-';
    var digits := if s != [] && (s[0] == '-' || s[0] == '+') then s[1..] else s;
    if digits == [] || !AllDigits(digits) then Malformed
    else if negative then
      if Value(digits) <= MAX_INT + 1 then Number(0 - Value(digits)) else OutOfRange(-MAX_INT - 1)
    else
      if Value(digits) <= MAX_INT then Number(Value(digits)) else OutOfRange(MAX_INT)
  }

  // Printing and parsing a number that fits into an int.
  lemma AtoiDecimal(n: nat)
    requires n <= MAX_INT
    ensures Atoi(Decimal(n)) == Number(n)
  {
    DecimalValue(n);
    assert IsDigit(Decimal(n)[0]);
  }

  // A sign in front, a number out of range, and text that is no number.
  lemma AtoiOdd(n: nat, s: string)
    ensures n <= MAX_INT ==> Atoi("+" + Decimal(n)) == Number(n)
    ensures n <= MAX_INT + 1 ==> Atoi("-" + Decimal(n)) == Number(0 - n)
    ensures n > MAX_INT ==> Atoi(Decimal(n)) == OutOfRange(MAX_INT)
    ensures n > MAX_INT + 1 ==> Atoi("-" + Decimal(n)) == OutOfRange(-MAX_INT - 1)
    ensures s == [] || (s[0] != '-' && s[0] != '+' && !AllDigits(s)) ==> Atoi(s) == Malformed
  {
    DecimalValue(n);
    assert ("+" + Decimal(n))[1..] == Decimal(n) && ("-" + Decimal(n))[1..] == Decimal(n);
    assert IsDigit(Decimal(n)[0]);
  }

  lemma DecimalInjective(m: nat, n: nat)
    requires Decimal(m) == Decimal(n)
    ensures m == n
  {
    DecimalValue(m);
    DecimalValue(n);
  }

  // ---- log file names: <name>-<index>-<stream>.log ----

  function LogName(name: string, index: nat, suffix: string): string {
    name + "-" + Decimal(index) + "-" + suffix + ".log"
  }

  // s without its suffix t, if it has it.
  function TrimSuffix(s: string, t: string): string {
    if |t| <= |s| && s[|s| - |t|..] == t then s[..|s| - |t|] else s
  }

  // The position of the last c in s, or -1.
  function LastIndex(s: string, c: char): (i: int)
    ensures -1 <= i < |s|
    ensures i >= 0 ==> s[i] == c
    ensures forall j :: i < j < |s| ==> s[j] != c
  {
    if s == [] then -1
    else if s[|s| - 1] == c then |s| - 1
    else LastIndex(s[..|s| - 1], c)
  }

  // The part of a base name from its last dot on; empty without a dot.
  function Extension(s: string): string {
    var i := LastIndex(s, '.');
    if i >= 0 then s[i..] else ""
  }

  // The label that the log view shows for a log file.
  function InstanceLabel(base: string): string {
    var b := TrimSuffix(TrimSuffix(TrimSuffix(base, Extension(base)), "-out"), "-err");
    var i := LastIndex(b, '-');
    if i >= 0 then "i" + b[i + 1..] else ""
  }

  lemma LastIndexAt(s: string, c: char, i: nat)
    requires i < |s| && s[i] == c && forall j :: i < j < |s| ==> s[j] != c
    ensures LastIndex(s, c) == i
  {
  }

  lemma TrimmedSuffix(s: string, t: string)
    ensures TrimSuffix(s + t, t) == s
  {
    assert (s + t)[|s + t| - |t|..] == t;
    assert (s + t)[..|s|] == s;
  }

  // The name before its extension.
  lemma LogNameStem(name: string, index: nat, suffix: string)
    requires suffix == "out" || suffix == "err"
    ensures TrimSuffix(LogName(name, index, suffix), Extension(LogName(name, index, suffix)))
            == name + "-" + Decimal(index) + "-" + suffix
  {
    var stem := name + "-" + Decimal(index) + "-" + suffix;
    var full := LogName(name, index, suffix);
    assert full == stem + ".log";
    LastIndexAt(full, '.', |stem|);
    assert full[|stem|..] == ".log";
    TrimmedSuffix(stem, ".log");
  }

  lemma NotTrimmed(s: string, t: string)
    requires s != [] && t != [] && s[|s| - 1] != t[|t| - 1]
    ensures TrimSuffix(s, t) == s
  {
  }

  lemma StreamTrimmed(b: string, suffix: string)
    requires suffix == "out" || suffix == "err"
    requires b != [] && IsDigit(b[|b| - 1])
    ensures TrimSuffix(TrimSuffix(b + "-" + suffix, "-out"), "-err") == b
  {
    hide TrimSuffix;
    if suffix == "out" {
      assert b + "-" + suffix == b + "-out";
      TrimmedSuffix(b, "-out");
      NotTrimmed(b, "-err");
    } else {
      assert b + "-" + suffix == b + "-err";
      NotTrimmed(b + "-err", "-out");
      TrimmedSuffix(b, "-err");
    }
  }

  lemma DashBefore(p: string, digits: string)
    requires p != [] && p[|p| - 1] == '-' && AllDigits(digits)
    ensures LastIndex(p + digits, '-') == |p| - 1 && (p + digits)[|p|..] == digits
  {
    hide LastIndex;
    var b := p + digits;
    forall j | |p| <= j < |b| ensures b[j] != '-' {
      assert b[j] == digits[j - |p|] && IsDigit(digits[j - |p|]);
    }
    LastIndexAt(b, '-', |p| - 1);
  }

  lemma AfterLastDash(name: string, digits: string)
    requires AllDigits(digits)
    ensures LastIndex(name + "-" + digits, '-') == |name|
    ensures (name + "-" + digits)[|name| + 1..] == digits
  {
    hide LastIndex, AllDigits;
    DashBefore(name + "-", digits);
  }

  // The label parses back the index that the log name prints, whatever the
  // service is called.
  lemma LabelReadsIndex(name: string, index: nat, suffix: string)
    requires suffix == "out" || suffix == "err"
    ensures InstanceLabel(LogName(name, index, suffix)) == "i" + Decimal(index)
  {
    hide TrimSuffix, LastIndex, LogName, Decimal, Extension, AllDigits;
    LogNameStem(name, index, suffix);
    DecimalValue(index);
    LastDigit(Decimal(index));
    var b := name + "-" + Decimal(index);
    assert b[|b| - 1] == Decimal(index)[|Decimal(index)| - 1];
    StreamTrimmed(b, suffix);
    AfterLastDash(name, Decimal(index));
  }

  lemma LastDigit(s: string)
    requires s != [] && AllDigits(s)
    ensures IsDigit(s[|s| - 1])
  {
  }

  lemma PrefixUnique(a: string, b: string, t: string)
    requires a + t == b + t
    ensures a == b
  {
    assert |a| == |b|;
    assert a == (a + t)[..|a|] && b == (b + t)[..|b|];
  }

  // Different instances of whatever services never share a log file.
  lemma LogNamesInjective(name: string, index: nat, name': string, index': nat, suffix: string)
    requires suffix == "out" || suffix == "err"
    requires LogName(name, index, suffix) == LogName(name', index', suffix)
    ensures name == name' && index == index'
  {
    hide InstanceLabel, Decimal;
    LabelReadsIndex(name, index, suffix);
    LabelReadsIndex(name', index', suffix);
    assert Decimal(index) == ("i" + Decimal(index))[1..] == ("i" + Decimal(index'))[1..] == Decimal(index');
    DecimalInjective(index, index');
    var tail := "-" + Decimal(index) + "-" + suffix + ".log";
    assert LogName(name, index, suffix) == name + tail && LogName(name', index, suffix) == name' + tail;
    PrefixUnique(name, name', tail);
  }

  // The two streams of an instance never share one either.
  lemma StreamsApart(name: string, index: nat, name': string, index': nat)
    ensures LogName(name, index, "out") != LogName(name', index', "err")
  {
    var a, b := LogName(name, index, "out"), LogName(name', index', "err");
    assert a[|a| - 5] == 't' && b[|b| - 5] == 'r';
  }

  // The names as they look.
  lemma LogNameLooks()
    ensures LogName("web", 7, "out") == "web-7-out.log" && LogName("web", 7, "err") == "web-7-err.log"
  {
    assert Decimal(7) == "7";
  }
}

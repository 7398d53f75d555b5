/** PostgreSQL settings with units: reading them, printing them, and the exact arithmetic between. */
module Units {
  import opened Names

  // ---------------------------------------------------------------- numbers as text

  predicate IsDigit(c: char, base: nat) {
    if base == 8 then '0' <= c <= '7'
    else if base == 10 then '0' <= c <= '9'
    else '0' <= c <= '9' || 'a' <= c <= 'f' || 'A' <= c <= 'F'
  }

  function DigitValue(c: char): nat
    requires IsDigit(c, 16)
  {
    if c <= '9' then c as int - '0' as int
    else if c <= 'F' then c as int - 'A' as int + 10
    else c as int - 'a' as int + 10
  }

  predicate AllDigits(s: string, base: nat) {
    forall i :: 0 <= i < |s| ==> IsDigit(s[i], base)
  }

  /** How many digits a text starts with. */
  function CountDigits(s: string, base: nat): (n: nat)
    ensures n <= |s| && AllDigits(s[..n], base)
  {
    if s != "" && IsDigit(s[0], base) then 1 + CountDigits(s[1..], base) else 0
  }

  function Value(s: string, base: nat): nat
    requires AllDigits(s, base)
  {
    if s == "" then 0 else Value(s[..|s| - 1], base) * base + DigitValue(s[|s| - 1])
  }

  function Decimal(n: nat): (s: string)
    ensures s != ""
  {
    var digit := ('0' as int + n % 10) as char;
    if n < 10 then [digit] else Decimal(n / 10) + [digit]
  }

  function Print(k: int): string {
    if k < 0 then "-" + Decimal(-k) else Decimal(k)
  }

  /** White space, as far as ASCII goes. */
  predicate IsSpace(c: char) {
    9 <= c as int <= 13 || 28 <= c as int <= 32
  }

  function StripLeft(s: string): string {
    if s != "" && IsSpace(s[0]) then StripLeft(s[1..]) else s
  }

  function StripRight(s: string): string {
    if s != "" && IsSpace(s[|s| - 1]) then StripRight(s[..|s| - 1]) else s
  }

  function Strip(s: string): string {
    StripRight(StripLeft(s))
  }

  function SignLength(s: string): (n: nat)
    ensures n <= |s|
  {
    if s != "" && (s[0] == '-' || s[0] == '+') then 1 else 0
  }

  function Signed(s: string, n: nat): int {
    var k: int := n;
    if s != "" && s[0] == '-' then -k else k
  }

  /** The number at the start of a text, in hexadecimal, octal or decimal C notation, and its length. */
  function Magnitude(body: string): (r: Option<(nat, nat)>)
    ensures r.Some? ==> 0 < r.value.1 <= |body|
  {
    if |body| > 2 && body[0] == '0' && body[1] == 'x' && CountDigits(body[2..], 16) > 0 then
      var n := CountDigits(body[2..], 16);
      Some((Value(body[2..][..n], 16), 2 + n))
    else
      var base := if body != "" && body[0] == '0' then 8 else 10;
      var n := CountDigits(body, base);
      if n == 0 then None else Some((Value(body[..n], base), n))
  }

  /** The integer at the start of a text, and what follows it. */
  function Strtol(value: string, strict: bool): (Option<int>, string) {
    var v := Strip(value);
    var body := v[SignLength(v)..];
    var found := Magnitude(body);
    if found.Some? then (Some(Signed(v, found.value.0)), body[found.value.1..])
    else (if strict then None else Some(1), v)
  }

  function Power(e: nat): real {
    if e == 0 then 1.0 else 10.0 * Power(e - 1)
  }

  lemma {:induction false} PowerPositive(e: nat)
    ensures Power(e) > 0.0
  {
    if e > 0 {
      PowerPositive(e - 1);
    }
  }

  /** The exponent at the start of a text and its length; zero when there is none. */
  function Exponent(s: string): (r: (int, nat))
    ensures r.1 <= |s|
  {
    if s == "" || (s[0] != 'e' && s[0] != 'E') then (0, 0)
    else
      var sign := SignLength(s[1..]);
      var n := CountDigits(s[1 + sign..], 10);
      if n == 0 then (0, 0) else (Signed(s[1..], Value(s[1 + sign..][..n], 10)), 1 + sign + n)
  }

  /** A whole number with the point moved: to the left by so many digits, and then by the exponent. */
  function Moved(n: int, digits: nat, exponent: int): real {
    PowerPositive(digits); PowerPositive(if exponent < 0 then -exponent else 0);
    var x := n as real / Power(digits);
    if exponent >= 0 then x * Power(exponent) else x / Power(-exponent)
  }

  lemma MovedExact(n: int, digits: nat, exponent: int)
    ensures exponent >= 0 ==> Moved(n, digits, exponent) * Power(digits) == n as real * Power(exponent)
    ensures exponent < 0 ==> Moved(n, digits, exponent) * Power(-exponent) * Power(digits) == n as real
  {
    hide Power;
    PowerPositive(digits);
    var x := n as real / Power(digits);
    if exponent < 0 {
      PowerPositive(-exponent);
      var y := x / Power(-exponent);
      assert y * Power(-exponent) == x;
    } else {
      Reordered(x, Power(exponent), Power(digits));
    }
  }

  lemma Reordered(x: real, a: real, b: real)
    ensures x * a * b == (x * b) * a
  {}

  /** The decimal fraction at the start of a text, and what follows it. */
  function Strtod(value: string): (Option<real>, string) {
    var v := Strip(value);
    var sign := SignLength(v);
    var body := v[sign..];
    var whole := CountDigits(body, 10);
    var fraction := if whole < |body| && body[whole] == '.' then CountDigits(body[whole + 1..], 10) else 0;
    if whole + fraction == 0 then (None, v)
    else
      var end := if fraction > 0 then whole + 1 + fraction else whole;
      var digits := body[..whole] + (if fraction > 0 then body[whole + 1..][..fraction] else "");
      var (e, taken) := Exponent(body[end..]);
      (Some(Moved(Signed(v, Value(digits, 10)), fraction, e)), body[end + taken..])
  }

  /** Round to the nearest integer, a tie to the even one. */
  function Round(x: real): int {
    var low := x.Floor;
    var part := x - low as real;
    if part < 0.5 || (part == 0.5 && low % 2 == 0) then low else low + 1
  }

  /** It is the nearest, and of two equally near ones the even one. */
  lemma RoundNearest(x: real, k: int)
    ensures Round(x) == k <==>
              k as real - 0.5 <= x <= k as real + 0.5 && (x == k as real - 0.5 || x == k as real + 0.5 ==> k % 2 == 0)
  {
    var low := x.Floor;
    if k == low {
    } else if k == low + 1 {
    } else {
      assert k < low ==> k + 1 <= low;
    }
  }

  // ---------------------------------------------------------------- units

  /** A unit, and how many of each base unit it is worth. */
  datatype Row = Row(unit: string, rates: map<string, real>)

  function MemoryTable(): seq<Row> {
    [Row("TB", map["B" := 1099511627776.0, "kB" := 1073741824.0, "MB" := 1048576.0]),
     Row("GB", map["B" := 1073741824.0, "kB" := 1048576.0, "MB" := 1024.0]),
     Row("MB", map["B" := 1048576.0, "kB" := 1024.0, "MB" := 1.0]),
     Row("kB", map["B" := 1024.0, "kB" := 1.0, "MB" := 1.0 / 1024.0]),
     Row("B", map["B" := 1.0, "kB" := 1.0 / 1024.0, "MB" := 1.0 / 1048576.0])]
  }

  function TimeTable(): seq<Row> {
    [Row("d", map["ms" := 86400000.0, "s" := 86400.0, "min" := 1440.0]),
     Row("h", map["ms" := 3600000.0, "s" := 3600.0, "min" := 60.0]),
     Row("min", map["ms" := 60000.0, "s" := 60.0, "min" := 1.0]),
     Row("s", map["ms" := 1000.0, "s" := 1.0, "min" := 1.0 / 60.0]),
     Row("ms", map["ms" := 1.0, "s" := 1.0 / 1000.0, "min" := 1.0 / 60000.0]),
     Row("us", map["ms" := 1.0 / 1000.0, "s" := 1.0 / 1000000.0, "min" := 1.0 / 60000000.0])]
  }

  function ConversionTable(base: string): seq<Row> {
    if base in ["B", "kB", "MB"] then MemoryTable()
    else if base in ["ms", "s", "min"] then TimeTable()
    else []
  }

  lemma TableRates(base: string)
    ensures forall row :: row in ConversionTable(base) ==> base in row.rates && row.rates[base] > 0.0
  {}

  /** The place of a unit in a table. */
  function Find(table: seq<Row>, unit: string, from: nat): (r: Option<nat>)
    requires from <= |table|
    ensures r.Some? ==> r.value < |table| && table[r.value].unit == unit
    decreases |table| - from
  {
    if from == |table| then None else if table[from].unit == unit then Some(from) else Find(table, unit, from + 1)
  }

  datatype Converted<T> = Converted(value: T) | Unknown | DivisionByZero

  function Scale(value: real, rate: real, times: int): real
    requires times != 0
  {
    value * (rate / times as real)
  }

  /** Anything else is no base unit. */
  lemma OtherUnits(base: string)
    ensures base !in ["B", "kB", "MB", "ms", "s", "min"] <==> ConversionTable(base) == []
  {}

  /** The nearest whole number of a unit. */
  function RoundTo(value: real, rate: real): real
    requires rate != 0.0
  {
    Round(value / rate) as real * rate
  }

  function ConvertToBaseUnit(value: real, unit: string, baseUnit: Option<string>): Converted<real> {
    var (times, base) := Strtol(if baseUnit.Some? then baseUnit.value else "None", false);
    var table := ConversionTable(base);
    var place := Find(table, unit, 0);
    if times.None? || place.None? || base !in table[place.value].rates then Unknown
    else if times.value == 0 then DivisionByZero
    else
      TableRates(base);
      var scaled := Scale(value, table[place.value].rates[base], times.value);
      var next := place.value + 1;
      if next < |table|
      then Converted(RoundTo(scaled, table[next].rates[base]))
      else Converted(scaled)
  }

  function ParseInt(value: string, baseUnit: Option<string>): Converted<int> {
    var (whole, after) := Strtol(value, true);
    var fractional := (whole.None? && after != "" && after[0] == '.') || (after != "" && after[0] in ['.', 'e', 'E']);
    var (number, rest) := if fractional then Strtod(value)
                          else (if whole.Some? then Some(whole.value as real) else None, after);
    if number.None? then Unknown
    else
      var unit := Strip(rest);
      if unit == "" then Converted(Round(number.value))
      else
        match ConvertToBaseUnit(number.value, unit, baseUnit)
        case Converted(x) => Converted(Round(x))
        case Unknown => Unknown
        case DivisionByZero => DivisionByZero
  }

  /** The unit can print the value without loss, or is the last resort. */
  predicate Fits(value: int, rate: real) {
    rate <= 1.0 || value % rate.Floor == 0
  }

  /** The first unit of the table that fits, from a place on. */
  function FirstFit(table: seq<Row>, base: string, value: int, from: nat): (r: Option<nat>)
    requires from <= |table| && forall row :: row in table ==> base in row.rates
    ensures r.Some? ==> from <= r.value < |table| && Fits(value, table[r.value].rates[base])
    ensures forall j :: from <= j < (if r.Some? then r.value else |table|) ==> !Fits(value, table[j].rates[base])
    decreases |table| - from
  {
    if from == |table| then None
    else if Fits(value, table[from].rates[base]) then Some(from)
    else FirstFit(table, base, value, from + 1)
  }

  /** What is printed for a value: a number and a unit. */
  function Printed(value: int, base: string): Option<string> {
    TableRates(base);
    var table := ConversionTable(base);
    var place := FirstFit(table, base, value, 0);
    if place.None? then None
    else Some(Print(Round(value as real / table[place.value].rates[base])) + table[place.value].unit)
  }

  method ConvertIntFromBaseUnit(baseValue: int, baseUnit: string) returns (r: Option<string>)
    ensures var (times, base) := Strtol(baseUnit, false);
            r == Printed(baseValue * (if times.Some? then times.value else 1), base)
  {
    hide Strtol, ConversionTable;
    var (times, base) := Strtol(baseUnit, false);
    var value := baseValue * (if times.Some? then times.value else 1);
    var table := ConversionTable(base);
    TableRates(base);
    for i := 0 to |table|
      invariant FirstFit(table, base, value, 0) == FirstFit(table, base, value, i)
    {
      var multiplier := table[i].rates[base];
      if multiplier <= 1.0 || value % multiplier.Floor == 0 {
        return Some(Print(Round(value as real / multiplier)) + table[i].unit);
      }
    }
    r := None;
  }

  // ---------------------------------------------------------------- numbers survive printing

  lemma {:induction false} CountPrefix(s: string, rest: string, base: nat)
    requires AllDigits(s, base) && (rest == "" || !IsDigit(rest[0], base))
    ensures CountDigits(s + rest, base) == |s|
  {
    if s == "" {
      assert s + rest == rest;
    } else {
      assert (s + rest)[1..] == s[1..] + rest;
      CountPrefix(s[1..], rest, base);
    }
  }

  lemma {:induction false} DecimalValue(n: nat)
    ensures AllDigits(Decimal(n), 10) && Value(Decimal(n), 10) == n
    ensures n > 0 ==> Decimal(n)[0] != '0'
    ensures n == 0 ==> Decimal(n) == "0"
  {
    var s := Decimal(n);
    if n < 10 {
      assert s[..0] == "";
    } else {
      DecimalValue(n / 10);
      assert s[..|s| - 1] == Decimal(n / 10);
    }
  }

  /** What may follow a number: nothing that continues it, and no trailing white space. */
  predicate Ends(rest: string) {
    rest == "" || (!IsDigit(rest[0], 10) && rest[0] != 'x' && !IsSpace(rest[|rest| - 1]))
  }

  lemma StripClean(s: string)
    requires s != "" && !IsSpace(s[0]) && !IsSpace(s[|s| - 1])
    ensures Strip(s) == s
  {}

  lemma MagnitudeDecimal(n: nat, rest: string)
    requires Ends(rest)
    ensures Magnitude(Decimal(n) + rest) == Some((n, |Decimal(n)|))
  {
    var digits := Decimal(n);
    var body := digits + rest;
    DecimalValue(n);
    assert body[..|digits|] == digits && body[0] == digits[0];
    if n == 0 {
      CountPrefix(digits, rest, 8);
      assert Value("0", 8) == 0 by {
        assert "0"[..0] == "";
      }
      assert |body| > 1 ==> body[1] == rest[0];
    } else {
      CountPrefix(digits, rest, 10);
    }
  }

  /** `0x` announces hexadecimal digits. */
  lemma MagnitudeHex(body: string, digits: string, rest: string)
    requires body == "0x" + (digits + rest)
    requires digits != "" && AllDigits(digits, 16) && (rest == "" || !IsDigit(rest[0], 16))
    ensures Magnitude(body) == Some((Value(digits, 16), 2 + |digits|))
  {
    hide CountDigits, Value, AllDigits, IsDigit;
    CountPrefix(digits, rest, 16);
    assert body[0] == '0' && body[1] == 'x' && body[2..] == digits + rest;
    assert (digits + rest)[..|digits|] == digits;
  }

  /** A leading zero announces octal digits, and what is not one of them is left. */
  lemma MagnitudeOctal(body: string, digits: string, rest: string)
    requires body == digits + rest
    requires digits != "" && digits[0] == '0' && AllDigits(digits, 8) && (rest == "" || !IsDigit(rest[0], 8))
    requires |digits| > 1 || rest == "" || rest[0] != 'x'
    ensures Magnitude(body) == Some((Value(digits, 8), |digits|))
  {
    hide CountDigits, Value;
    CountPrefix(digits, rest, 8);
    assert body[0] == '0';
    assert |body| > 1 ==> body[1] == if |digits| > 1 then digits[1] else rest[0];
    assert |digits| > 1 ==> IsDigit(digits[1], 8);
    assert body[..|digits|] == digits;
  }

  lemma SignForm(v: string, body: string, n: nat, negative: bool)
    requires body != "" && IsDigit(body[0], 10)
    requires v == if negative then "-" + body else body
    ensures v[SignLength(v)..] == body && Signed(v, n) == if negative then -(n as int) else n
    ensures v != "" && !IsSpace(v[0]) && v[|v| - 1] == body[|body| - 1]
  {
    if negative {
      assert v[0] == '-' && v[1..] == body;
    } else {
      assert v[0] == body[0] && v[0..] == body;
    }
  }

  lemma PrintForm(k: int, rest: string)
    requires Ends(rest)
    ensures var v := Print(k) + rest;
            var n := if k < 0 then -k else k;
            && Strip(v) == v && v[SignLength(v)..] == Decimal(n) + rest && Signed(v, n) == k
  {
    hide Decimal, Strip, Value, SignLength, Signed;
    var n := if k < 0 then -k else k;
    var digits := Decimal(n);
    DecimalValue(n);
    var v, body := Print(k) + rest, digits + rest;
    assert IsDigit(digits[|digits| - 1], 10) && body[0] == digits[0] && IsDigit(digits[0], 10);
    assert "-" + digits + rest == "-" + body;
    assert body[|body| - 1] == if rest == "" then digits[|digits| - 1] else rest[|rest| - 1];
    SignForm(v, body, n, k < 0);
    StripClean(v);
  }

  /** Printing an integer and reading it back, whatever unit follows, gives the integer and the unit. */
  lemma StrtolPrint(k: int, rest: string, strict: bool)
    requires Ends(rest)
    ensures Strtol(Print(k) + rest, strict) == (Some(k), rest)
  {
    hide Magnitude, Strip, Signed, SignLength, Decimal;
    var n := if k < 0 then -k else k;
    MagnitudeDecimal(n, rest);
    PrintForm(k, rest);
    assert (Decimal(n) + rest)[|Decimal(n)|..] == rest;
  }

  /** The digits by their values, in either case for hexadecimal ones. */
  lemma DigitExact(k: nat)
    requires k < 16
    ensures var small, great := "0123456789abcdef"[k], "0123456789ABCDEF"[k];
            && IsDigit(small, 16) && IsDigit(great, 16) && DigitValue(small) == DigitValue(great) == k
            && (IsDigit(small, 10) <==> k < 10) && (IsDigit(small, 8) <==> k < 8)
  {}

  /** There are no others. */
  lemma DigitOnly(c: char)
    ensures IsDigit(c, 8) ==> IsDigit(c, 10)
    ensures IsDigit(c, 10) ==> IsDigit(c, 16)
    ensures IsDigit(c, 16) ==> c in "0123456789abcdefABCDEF"
  {
    var all := "0123456789abcdefABCDEF";
    if IsDigit(c, 16) {
      var k := if c <= '9' then c as int - '0' as int else if c <= 'F' then 16 + c as int - 'A' as int else 10 + c as int - 'a' as int;
      assert all[k] == c;
    }
  }

  function Zeros(n: nat): string {
    if n == 0 then "" else Zeros(n - 1) + "0"
  }

  /** A power of ten is a one followed by that many zeros. */
  lemma {:induction false} PowerExact(e: nat)
    ensures AllDigits("1" + Zeros(e), 10) && Value("1" + Zeros(e), 10) as real == Power(e)
  {
    var s := "1" + Zeros(e);
    if e > 0 {
      PowerExact(e - 1);
      assert s[..|s| - 1] == "1" + Zeros(e - 1);
    } else {
      assert s == "1" && s[..0] == "";
    }
  }

  /** White space around a text does not matter. */
  lemma {:induction false} StripExact(before: string, s: string, after: string)
    requires forall c :: c in before || c in after ==> c in [' ', '\t', '\n', '\r']
    requires s != "" && !IsSpace(s[0]) && !IsSpace(s[|s| - 1])
    ensures Strip(before + s + after) == s
    decreases |before| + |after|
  {
    if before != "" {
      assert before[0] in before;
      assert (before + s + after)[1..] == before[1..] + s + after;
      StripExact(before[1..], s, after);
    } else if after != "" {
      assert after[|after| - 1] in after;
      assert before + s + after == s + after;
      assert (s + after)[..|s + after| - 1] == s + after[..|after| - 1];
      StripExact(before, s, after[..|after| - 1]);
      assert before + s + after[..|after| - 1] == s + after[..|after| - 1];
    } else {
      assert before + s + after == s;
      StripClean(s);
    }
  }

  // ---------------------------------------------------------------- decimal fractions

  /** What is left of a text after so many characters. */
  predicate Cut(s: string, k: nat, rest: string) {
    k <= |s| && s[k..] == rest
  }

  lemma After(s: string, a: string, b: string)
    requires s != "" && s[1..] == a + b
    ensures Cut(s, 1 + |a|, b)
  {
    assert s[1 + |a|..] == s[1..][|a|..];
  }

  /** The digits a text starts with. */
  predicate Leading(body: string, digits: string) {
    digits != "" && AllDigits(digits, 10) && CountDigits(body, 10) == |digits| && body[..|digits|] == digits
  }

  lemma LeadingDigits(body: string, digits: string, rest: string)
    requires body == digits + rest && digits != "" && AllDigits(digits, 10) && (rest == "" || !IsDigit(rest[0], 10))
    ensures Leading(body, digits) && body != "" && body[0] == digits[0]
  {
    hide CountDigits, AllDigits, IsDigit;
    CountPrefix(digits, rest, 10);
  }

  /** A text that is a sign and then the rest. */
  predicate SignFirst(s: string, sign: string, n: nat) {
    SignLength(s) == |sign| && Signed(s, n) == WithSign(sign, n)
  }

  lemma ExponentForm(s: string, sign: string, body: string, digits: string)
    requires s != "" && (s[0] == 'e' || s[0] == 'E')
    requires Cut(s, 1 + |sign|, body) && Leading(body, digits) && SignFirst(s[1..], sign, Value(digits, 10))
    ensures Exponent(s) == (WithSign(sign, Value(digits, 10)), 1 + |sign| + |digits|)
  {
    hide CountDigits, Value, AllDigits, SignLength, Signed, WithSign;
  }

  /** The parts of an exponent. */
  predicate ExponentParts(s: string, sign: string, body: string, digits: string) {
    && s != "" && (s[0] == 'e' || s[0] == 'E')
    && Cut(s, 1 + |sign|, body) && Leading(body, digits) && SignFirst(s[1..], sign, Value(digits, 10))
  }

  lemma ExponentKnown(s: string, sign: string, body: string, digits: string, rest: string)
    requires s != "" && (s[0] == 'e' || s[0] == 'E') && s[1..] == sign + body && body == digits + rest && IsSign(sign)
    requires digits != "" && AllDigits(digits, 10) && (rest == "" || !IsDigit(rest[0], 10))
    ensures ExponentParts(s, sign, body, digits)
  {
    hide *;
    FirstDigit(digits);
    LeadingDigits(body, digits, rest);
    SignKnown(sign, body, Value(digits, 10));
    After(s, sign, body);
    ExponentJoined(s, sign, body, digits);
  }

  lemma ExponentJoined(s: string, sign: string, body: string, digits: string)
    requires s != "" && (s[0] == 'e' || s[0] == 'E')
    requires Cut(s, 1 + |sign|, body) && Leading(body, digits) && SignFirst(s[1..], sign, Value(digits, 10))
    ensures ExponentParts(s, sign, body, digits)
  {
    hide Cut, Leading, SignFirst, Value;
  }

  lemma ExponentOf(s: string, sign: string, body: string, digits: string)
    requires ExponentParts(s, sign, body, digits)
    ensures AllDigits(digits, 10) && Exponent(s) == (WithSign(sign, Value(digits, 10)), 1 + |sign| + |digits|)
  {
    hide Cut, SignFirst, Value, Exponent, CountDigits, WithSign;
    ExponentForm(s, sign, body, digits);
  }

  /** An exponent: the letter, perhaps a sign, and all digits that follow. */
  lemma ExponentExact(s: string, sign: string, body: string, digits: string, rest: string)
    requires s != "" && (s[0] == 'e' || s[0] == 'E') && s[1..] == sign + body && body == digits + rest && IsSign(sign)
    requires digits != "" && AllDigits(digits, 10) && (rest == "" || !IsDigit(rest[0], 10))
    ensures Exponent(s) == (WithSign(sign, Value(digits, 10)), 1 + |sign| + |digits|)
  {
    hide *;
    ExponentKnown(s, sign, body, digits, rest);
    ExponentOf(s, sign, body, digits);
  }

  function WithSign(sign: string, n: nat): int {
    var k: int := n;
    if sign == "-" then -k else k
  }

  predicate IsSign(sign: string) {
    sign == "" || sign == "-" || sign == "+"
  }

  lemma FirstDigit(digits: string)
    requires digits != "" && AllDigits(digits, 10)
    ensures IsDigit(digits[0], 10) && digits[0] != '-' && digits[0] != '+' && !IsSpace(digits[0])
  {}

  lemma SignKnown(sign: string, body: string, n: nat)
    requires IsSign(sign) && body != "" && body[0] != '-' && body[0] != '+'
    ensures SignFirst(sign + body, sign, n) && SignLength(sign + body) == |sign| && Cut(sign + body, |sign|, body)
    ensures Signed(sign + body, n) == WithSign(sign, n)
  {
    assert sign == "" ==> sign + body == body;
  }

  /** No exponent follows. */
  lemma ExponentNone(s: string)
    requires s == "" || s[0] !in ['e', 'E']
    ensures Exponent(s) == (0, 0)
  {}

  /** The parts of a decimal number. */
  function Written(sign: string, whole: string, fraction: string): string {
    sign + whole + Point(fraction)
  }

  function Point(fraction: string): (p: string)
    ensures |p| == if fraction == "" then 0 else 1 + |fraction|
  {
    if fraction == "" then "" else "." + fraction
  }

  /** The digits a text starts with and those after a point, so many of each. */
  predicate Parsed(body: string, whole: nat, fraction: nat, digits: string) {
    && CountDigits(body, 10) == whole && (fraction > 0 ==> whole < |body|)
    && fraction == (if whole < |body| && body[whole] == '.' then CountDigits(body[whole + 1..], 10) else 0)
    && digits == body[..whole] + (if fraction > 0 then body[whole + 1..][..fraction] else "")
    && AllDigits(digits, 10) && whole + fraction > 0
  }

  lemma StrtodForm(v: string, body: string, whole: nat, fraction: nat, digits: string, tail: string)
    requires Strip(v) == v && Cut(v, SignLength(v), body) && Parsed(body, whole, fraction, digits)
    requires Cut(body, if fraction > 0 then whole + 1 + fraction else whole, tail)
    ensures AllDigits(digits, 10)
    ensures var (e, taken) := Exponent(tail);
            Strtod(v) == (Some(Moved(Signed(v, Value(digits, 10)), fraction, e)), tail[taken..])
  {
    hide CountDigits, Value, AllDigits, Exponent, Moved, Strip, SignLength, Signed;
    var end := if fraction > 0 then whole + 1 + fraction else whole;
    CutMore(body, end, tail, Exponent(tail).1);
  }

  lemma CutMore(s: string, k: nat, rest: string, more: nat)
    requires Cut(s, k, rest) && more <= |rest|
    ensures s[k + more..] == rest[more..]
  {}

  /** A decimal number is read with its sign, all its digits before and after the point, and its exponent; what follows is
      left. */
  lemma StrtodExact(sign: string, whole: string, fraction: string, tail: string, exponent: nat)
    requires IsSign(sign) && whole + fraction != "" && AllDigits(whole, 10) && AllDigits(fraction, 10)
    requires tail == "" || (!IsDigit(tail[0], 10) && !IsSpace(tail[|tail| - 1]) && (fraction == "" ==> tail[0] != '.'))
    requires Exponent(tail).1 == exponent
    ensures Strtod(Written(sign, whole, fraction) + tail) ==
            (Some(Moved(WithSign(sign, Value(whole + fraction, 10)), |fraction|, Exponent(tail).0)), tail[exponent..])
  {
    hide *;
    NumberKnown(sign, whole, fraction, tail);
    NumberOf(Written(sign, whole, fraction) + tail, sign, whole + (Point(fraction) + tail), |whole|, |fraction|, whole + fraction, tail);
  }

  /** The parts of a number at the start of a text. */
  predicate NumberParts(v: string, sign: string, body: string, whole: nat, fraction: nat, digits: string, tail: string) {
    && Strip(v) == v && Cut(v, |sign|, body) && Parsed(body, whole, fraction, digits)
    && SignFirst(v, sign, Value(digits, 10)) && Cut(body, if fraction > 0 then whole + 1 + fraction else whole, tail)
  }

  lemma NumberOf(v: string, sign: string, body: string, whole: nat, fraction: nat, digits: string, tail: string)
    requires NumberParts(v, sign, body, whole, fraction, digits, tail)
    ensures AllDigits(digits, 10)
    ensures Strtod(v) == (Some(Moved(WithSign(sign, Value(digits, 10)), fraction, Exponent(tail).0)), tail[Exponent(tail).1..])
  {
    hide CountDigits, Value, AllDigits, Exponent, Moved, Strip, Strtod, SignLength, Signed, WithSign;
    StrtodForm(v, body, whole, fraction, digits, tail);
  }

  lemma NumberJoined(v: string, sign: string, body: string, whole: nat, fraction: nat, digits: string, tail: string)
    requires Strip(v) == v && Cut(v, |sign|, body) && Parsed(body, whole, fraction, digits)
    requires SignFirst(v, sign, Value(digits, 10))
    requires Cut(body, if fraction > 0 then whole + 1 + fraction else whole, tail)
    ensures NumberParts(v, sign, body, whole, fraction, digits, tail)
  {
    hide Cut, Parsed, SignFirst, Value, Strip;
  }

  lemma NumberKnown(sign: string, whole: string, fraction: string, tail: string)
    requires IsSign(sign) && whole + fraction != "" && AllDigits(whole, 10) && AllDigits(fraction, 10)
    requires tail == "" || (!IsDigit(tail[0], 10) && !IsSpace(tail[|tail| - 1]) && (fraction == "" ==> tail[0] != '.'))
    ensures AllDigits(whole + fraction, 10)
    ensures NumberParts(Written(sign, whole, fraction) + tail, sign, whole + (Point(fraction) + tail),
                        |whole|, |fraction|, whole + fraction, tail)
  {
    hide *;
    var body := whole + (Point(fraction) + tail);
    WrittenForm(sign, whole, fraction, tail);
    DigitsStart(whole, fraction, tail);
    DigitsJoined(whole, fraction);
    SignKnown(sign, body, Value(whole + fraction, 10));
    NumberClean(sign, whole, fraction, tail);
    WholePart(whole, fraction, tail);
    TailLeft(whole, fraction, tail);
    NumberJoined(Written(sign, whole, fraction) + tail, sign, body, |whole|, |fraction|, whole + fraction, tail);
  }

  lemma WrittenForm(sign: string, whole: string, fraction: string, tail: string)
    ensures Written(sign, whole, fraction) + tail == sign + (whole + (Point(fraction) + tail))
  {
    hide Point;
    Regrouped(sign, whole, Point(fraction), tail);
  }

  lemma Regrouped(a: string, b: string, c: string, d: string)
    ensures (a + b + c) + d == a + (b + (c + d))
  {
    assert (a + b) + c == a + (b + c);
    assert (a + (b + c)) + d == a + ((b + c) + d);
    assert (b + c) + d == b + (c + d);
  }

  lemma TailLeft(whole: string, fraction: string, tail: string)
    ensures Cut(whole + (Point(fraction) + tail), if |fraction| > 0 then |whole| + 1 + |fraction| else |whole|, tail)
  {}

  lemma DigitsJoined(whole: string, fraction: string)
    requires AllDigits(whole, 10) && AllDigits(fraction, 10)
    ensures AllDigits(whole + fraction, 10)
  {}

  lemma DigitsStart(whole: string, fraction: string, tail: string)
    requires whole + fraction != "" && AllDigits(whole, 10) && AllDigits(fraction, 10)
    ensures var body := whole + (Point(fraction) + tail);
            body != "" && body[0] != '-' && body[0] != '+' && !IsSpace(body[0])
  {
    if whole != "" {
      FirstDigit(whole);
    } else {
      FirstDigit(fraction);
    }
  }

  lemma NumberClean(sign: string, whole: string, fraction: string, tail: string)
    requires IsSign(sign) && whole + fraction != "" && AllDigits(whole, 10) && AllDigits(fraction, 10)
    requires tail == "" || !IsSpace(tail[|tail| - 1])
    ensures var v := sign + (whole + (Point(fraction) + tail)); Strip(v) == v
  {
    hide Strip;
    var point := Point(fraction);
    var body := whole + (point + tail);
    var v := sign + body;
    DigitsStart(whole, fraction, tail);
    assert v[0] == if sign == "" then body[0] else sign[0];
    assert v[|v| - 1] == body[|body| - 1];
    if tail != "" {
      assert body[|body| - 1] == tail[|tail| - 1];
    } else if fraction != "" {
      assert body[|body| - 1] == fraction[|fraction| - 1];
      assert IsDigit(fraction[|fraction| - 1], 10);
    } else {
      assert body[|body| - 1] == whole[|whole| - 1];
      assert IsDigit(whole[|whole| - 1], 10);
    }
    StripClean(v);
  }

  /** The digits before the point and those after it. */
  lemma WholePart(whole: string, fraction: string, tail: string)
    requires AllDigits(whole, 10) && AllDigits(fraction, 10) && whole + fraction != ""
    requires tail == "" || (!IsDigit(tail[0], 10) && (fraction == "" ==> tail[0] != '.'))
    ensures var body := whole + (Point(fraction) + tail);
            Parsed(body, |whole|, |fraction|, whole + fraction)
  {
    hide CountDigits;
    var point := Point(fraction);
    var body := whole + (point + tail);
    CountPrefix(whole, point + tail, 10);
    DigitsJoined(whole, fraction);
    if fraction != "" {
      assert body[|whole| + 1..] == fraction + tail;
      CountPrefix(fraction, tail, 10);
      assert (fraction + tail)[..|fraction|] == fraction;
    }
  }

  /** A number with a fraction is read whole, whatever its sign, and what follows it is the unit. */
  lemma ParseFraction(sign: string, n: nat, fraction: string, unit: string, baseUnit: Option<string>)
    requires IsSign(sign) && fraction != "" && AllDigits(fraction, 10)
    requires unit == "" || (!IsDigit(unit[0], 10) && unit[0] != 'e' && unit[0] != 'E' && !IsSpace(unit[0]) && !IsSpace(unit[|unit| - 1]))
    ensures AllDigits(Decimal(n) + fraction, 10)
    ensures var x := Moved(WithSign(sign, Value(Decimal(n) + fraction, 10)), |fraction|, 0);
            ParseInt(Written(sign, Decimal(n), fraction) + unit, baseUnit) ==
            if unit == "" then Converted(Round(x))
            else match ConvertToBaseUnit(x, unit, baseUnit) {
              case Converted(y) => Converted(Round(y))
              case Unknown => Unknown
              case DivisionByZero => DivisionByZero
            }
  {
    hide *;
    DecimalValue(n);
    DigitsJoined(Decimal(n), fraction);
    UnitTail(unit);
    StrtodExact(sign, Decimal(n), fraction, unit, 0);
    WholeRead(sign, n, fraction, unit);
    assert unit[0..] == unit;
    ParseForm(Written(sign, Decimal(n), fraction) + unit, baseUnit, unit);
  }

  lemma UnitTail(unit: string)
    requires unit == "" || (unit[0] != 'e' && unit[0] != 'E' && !IsSpace(unit[0]) && !IsSpace(unit[|unit| - 1]))
    ensures Exponent(unit) == (0, 0) && Strip(unit) == unit
  {
    ExponentNone(unit);
    if unit != "" {
      StripClean(unit);
    }
  }

  /** The whole part alone leaves a text that begins with the point. */
  lemma WholeRead(sign: string, n: nat, fraction: string, unit: string)
    requires IsSign(sign) && fraction != "" && AllDigits(fraction, 10) && (unit == "" || !IsSpace(unit[|unit| - 1]))
    ensures var (whole, after) := Strtol(Written(sign, Decimal(n), fraction) + unit, true);
            whole.Some? && after != "" && after[0] == '.'
  {
    hide Decimal, Strip, Magnitude, SignLength, Signed, Value, Exponent, IsSign;
    var rest := Point(fraction) + unit;
    var body := Decimal(n) + rest;
    DecimalValue(n);
    WrittenForm(sign, Decimal(n), fraction, unit);
    DigitsStart(Decimal(n), fraction, unit);
    SignKnown(sign, body, n);
    NumberClean(sign, Decimal(n), fraction, unit);
    PointEnds(fraction, unit);
    MagnitudeDecimal(n, rest);
    assert body[|Decimal(n)|..] == rest;
  }

  lemma PointEnds(fraction: string, unit: string)
    requires fraction != "" && AllDigits(fraction, 10) && (unit == "" || !IsSpace(unit[|unit| - 1]))
    ensures var rest := Point(fraction) + unit; rest != "" && rest[0] == '.' && Ends(rest)
  {
    var rest := Point(fraction) + unit;
    assert unit == "" ==> rest[|rest| - 1] == fraction[|fraction| - 1] && IsDigit(fraction[|fraction| - 1], 10);
  }

  lemma ParseForm(value: string, baseUnit: Option<string>, unit: string)
    requires Strtol(value, true).1 != "" && Strtol(value, true).1[0] == '.'
    requires Strtod(value).0.Some? && Strtod(value).1 == unit && Strip(unit) == unit
    ensures var x := Strtod(value).0.value;
            ParseInt(value, baseUnit) ==
            if unit == "" then Converted(Round(x))
            else match ConvertToBaseUnit(x, unit, baseUnit) {
              case Converted(y) => Converted(Round(y))
              case Unknown => Unknown
              case DivisionByZero => DivisionByZero
            }
  {
    hide Strtol, Strtod, Strip, Round, ConvertToBaseUnit;
  }

  // ---------------------------------------------------------------- exact conversion

  predicate IsPlain(base: string) {
    base in ["B", "kB", "MB", "ms", "s", "min"]
  }

  predicate Integral(x: real) {
    x == x.Floor as real
  }

  /** How many base units the unit in a place is worth. */
  function Rate(base: string, i: nat): real
    requires i < |ConversionTable(base)|
  {
    TableRates(base);
    ConversionTable(base)[i].rates[base]
  }

  /** The place of the base unit itself. */
  function BasePlace(base: string): nat
    requires IsPlain(base)
  {
    if base == "B" || base == "ms" then 4 else if base == "kB" || base == "s" then 3 else 2
  }

  /** Going down a table, each unit is a whole multiple of the next, and the base unit separates the whole rates
      from the fractions. */
  predicate WellRated(base: string, i: nat)
    requires IsPlain(base) && i < |ConversionTable(base)|
  {
    && Rate(base, i) > 0.0
    && (i < BasePlace(base) ==> Rate(base, i) > 1.0)
    && (i == BasePlace(base) ==> Rate(base, i) == 1.0)
    && (i <= BasePlace(base) ==> Integral(Rate(base, i)))
    && (i > BasePlace(base) ==> Rate(base, i) < 1.0 && Integral(1.0 / Rate(base, i)))
    && (i + 1 < |ConversionTable(base)| ==> Rate(base, i + 1) > 0.0 && Integral(Rate(base, i) / Rate(base, i + 1)))
  }

  /** The rates of one base unit, from the largest unit to the smallest. */
  function Column(base: string): seq<real>
    requires IsPlain(base)
  {
    if base == "B" then [1099511627776.0, 1073741824.0, 1048576.0, 1024.0, 1.0]
    else if base == "kB" then [1073741824.0, 1048576.0, 1024.0, 1.0, 1.0 / 1024.0]
    else if base == "MB" then [1048576.0, 1024.0, 1.0, 1.0 / 1024.0, 1.0 / 1048576.0]
    else if base == "ms" then [86400000.0, 3600000.0, 60000.0, 1000.0, 1.0, 1.0 / 1000.0]
    else if base == "s" then [86400.0, 3600.0, 60.0, 1.0, 1.0 / 1000.0, 1.0 / 1000000.0]
    else [1440.0, 60.0, 1.0, 1.0 / 60.0, 1.0 / 60000.0, 1.0 / 60000000.0]
  }

  lemma ColumnRates(base: string)
    requires IsPlain(base)
    ensures |Column(base)| == |ConversionTable(base)|
    ensures forall i :: 0 <= i < |Column(base)| ==> Rate(base, i) == Column(base)[i]
  {}

  /** The units by name, from the largest to the smallest; each has its place once, and the base unit is worth one of itself. */
  lemma UnitNames(base: string)
    requires IsPlain(base)
    ensures var table := ConversionTable(base);
            if base in ["B", "kB", "MB"]
            then |table| == 5 && table[0].unit == "TB" && table[1].unit == "GB" && table[2].unit == "MB"
                 && table[3].unit == "kB" && table[4].unit == "B"
            else |table| == 6 && table[0].unit == "d" && table[1].unit == "h" && table[2].unit == "min"
                 && table[3].unit == "s" && table[4].unit == "ms" && table[5].unit == "us"
    ensures BasePlace(base) < |ConversionTable(base)| && ConversionTable(base)[BasePlace(base)].unit == base
    ensures Rate(base, BasePlace(base)) == 1.0
  {}

  /** How many of the next smaller unit a unit is worth: 1024 in memory; in time 24 hours a day, 60 minutes, 60 seconds, and
      1000 of what follows. */
  lemma UnitSteps(base: string, i: nat)
    requires IsPlain(base) && i + 1 < |ConversionTable(base)|
    ensures base in ["B", "kB", "MB"] ==> Rate(base, i) == 1024.0 * Rate(base, i + 1)
    ensures base in ["ms", "s", "min"] ==>
              Rate(base, i) == (if i == 0 then 24.0 else if i <= 2 then 60.0 else 1000.0) * Rate(base, i + 1)
  {
    hide ConversionTable, Rate;
    ColumnRates(base);
    if i == 0 {
    } else if i == 1 {
    } else if i == 2 {
    } else if i == 3 {
    } else {
    }
  }

  /** What `WellRated` says, for the rates of a column. */
  predicate WellPlaced(base: string, i: nat)
    requires IsPlain(base) && i < |Column(base)|
  {
    var rates := Column(base);
    && BasePlace(base) < |rates| && rates[i] > 0.0
    && (i < BasePlace(base) ==> rates[i] > 1.0)
    && (i == BasePlace(base) ==> rates[i] == 1.0)
    && (i <= BasePlace(base) ==> Integral(rates[i]))
    && (i > BasePlace(base) ==> rates[i] < 1.0 && Integral(1.0 / rates[i]))
    && (i + 1 < |rates| ==> rates[i + 1] > 0.0 && Integral(rates[i] / rates[i + 1]))
  }

  lemma MemoryWell(base: string, i: nat)
    requires (base == "B" || base == "kB" || base == "MB") && i < |Column(base)|
    ensures WellPlaced(base, i)
  {
    if i == 0 {
    } else if i == 1 {
    } else if i == 2 {
    } else if i == 3 {
    } else {
    }
  }

  lemma TimeWell(base: string, i: nat)
    requires (base == "ms" || base == "s" || base == "min") && i < |Column(base)|
    ensures WellPlaced(base, i)
  {
    if i == 0 {
    } else if i == 1 {
    } else if i == 2 {
    } else if i == 3 {
    } else if i == 4 {
    } else {
    }
  }

  lemma ColumnWell(base: string, i: nat)
    requires IsPlain(base) && i < |Column(base)|
    ensures WellPlaced(base, i)
  {
    hide Column, WellPlaced;
    if base == "B" || base == "kB" || base == "MB" {
      MemoryWell(base, i);
    } else {
      TimeWell(base, i);
    }
  }

  lemma RateAt(base: string, i: nat)
    requires IsPlain(base) && i < |ConversionTable(base)|
    ensures BasePlace(base) < |ConversionTable(base)| && WellRated(base, i)
  {
    hide ConversionTable, Rate, Column, BasePlace;
    ColumnRates(base);
    ColumnWell(base, i);
  }

  lemma BasePlaceFits(base: string)
    requires IsPlain(base)
    ensures BasePlace(base) < |ConversionTable(base)|
  {}

  lemma UnitAt(base: string, i: nat)
    requires IsPlain(base) && i < |ConversionTable(base)|
    ensures var unit := ConversionTable(base)[i].unit;
            && Find(ConversionTable(base), unit, 0) == Some(i)
            && Ends(unit) && unit != "" && unit[0] !in ['.', 'e', 'E'] && Strip(unit) == unit
  {
    StripClean(ConversionTable(base)[i].unit);
  }

  lemma RoundWhole(k: int)
    ensures Round(k as real) == k
  {}

  lemma WholeQuotient(v: int, rate: real)
    requires Integral(rate) && rate >= 1.0 && v % rate.Floor == 0
    ensures v as real / rate == (v / rate.Floor) as real
    ensures (v / rate.Floor) * rate.Floor == v
  {
    var k := v / rate.Floor;
    assert v == k * rate.Floor;
    assert v as real == k as real * rate;
  }

  /** Where the printed unit stands: it divides the value, and no larger unit does. */
  lemma PrintedPlace(value: int, base: string) returns (p: nat)
    requires IsPlain(base)
    ensures p <= BasePlace(base) < |ConversionTable(base)| && 1.0 <= Rate(base, p)
    ensures Rate(base, p).Floor >= 1 && value % Rate(base, p).Floor == 0
    ensures Printed(value, base) == Some(Print(value / Rate(base, p).Floor) + ConversionTable(base)[p].unit)
    ensures forall j :: 0 <= j < p ==> Rate(base, j).Floor > 1 && value % Rate(base, j).Floor != 0
  {
    hide ConversionTable, BasePlace, Print, IsPlain, Column;
    TableRates(base);
    ColumnRates(base);
    BasePlaceFits(base);
    RateAt(base, BasePlace(base));
    var table := ConversionTable(base);
    var fit := FirstFit(table, base, value, 0);
    p := fit.value;
    RateAt(base, p);
    forall j | 0 <= j < p
      ensures Rate(base, j).Floor > 1 && value % Rate(base, j).Floor != 0
    {
      RateAt(base, j);
    }
    WholeQuotient(value, Rate(base, p));
    RoundWhole(value / Rate(base, p).Floor);
  }

  function Times(k: int, rate: real): real {
    k as real * rate
  }

  /** Some integer in this unit is the value. */
  ghost predicate Represents(base: string, i: nat, value: int)
    requires i < |ConversionTable(base)|
  {
    exists k :: Times(k, Rate(base, i)) == value as real
  }

  /** The printed unit is the largest that represents the value without loss. */
  lemma LargestLossless(value: int, base: string) returns (p: nat, k: int)
    requires IsPlain(base)
    ensures p < |ConversionTable(base)|
    ensures Printed(value, base) == Some(Print(k) + ConversionTable(base)[p].unit)
    ensures Times(k, Rate(base, p)) == value as real
    ensures forall j :: 0 <= j < p ==> !Represents(base, j, value)
  {
    hide ConversionTable, BasePlace, Print, Printed, Rate, Times, Integral, IsPlain;
    p := PrintedPlace(value, base);
    RateAt(base, p);
    k := value / Rate(base, p).Floor;
    WholeQuotient(value, Rate(base, p));
    TimesWhole(k, Rate(base, p));
    forall j | 0 <= j < p
      ensures !Represents(base, j, value)
    {
      RateAt(base, j);
      NoQuotient(value, Rate(base, j));
    }
  }

  lemma MultipleLeavesNothing(k: int, r: int)
    requires r > 0
    ensures (k * r) % r == 0 && (k * r) / r == k
  {
    var q, m := (k * r) / r, (k * r) % r;
    assert (k - q) * r == m;
    assert k - q >= 1 ==> (k - q) * r >= r;
    assert k - q <= -1 ==> (k - q) * r <= -r;
  }

  lemma TimesWhole(k: int, rate: real)
    requires Integral(rate)
    ensures Times(k, rate) == (k * rate.Floor) as real
  {}

  lemma NoQuotient(value: int, rate: real)
    requires Integral(rate) && rate > 1.0 && value % rate.Floor != 0
    ensures forall k :: Times(k, rate) != value as real
  {
    hide Times;
    forall k
      ensures Times(k, rate) != value as real
    {
      TimesWhole(k, rate);
      MultipleLeavesNothing(k, rate.Floor);
    }
  }

  // ---------------------------------------------------------------- what cannot be converted

  /** A unit is known for a base unit exactly if one of its rows has that name. */
  lemma {:induction false} FindExact(table: seq<Row>, unit: string, from: nat)
    requires from <= |table|
    ensures Find(table, unit, from).Some? <==> exists i :: from <= i < |table| && table[i].unit == unit
    decreases |table| - from
  {
    if from < |table| && table[from].unit != unit {
      FindExact(table, unit, from + 1);
    }
  }

  /** An unknown unit, or one that does not go with the base unit, is not converted; a base unit of nothing cannot be
      divided by; everything else is converted. */
  lemma ConvertExact(value: real, unit: string, baseUnit: string, times: int, base: string)
    requires Strtol(baseUnit, false) == (Some(times), base)
    ensures var known := exists row :: row in ConversionTable(base) && row.unit == unit;
            && (ConvertToBaseUnit(value, unit, Some(baseUnit)).Unknown? <==> !known)
            && (ConvertToBaseUnit(value, unit, Some(baseUnit)).DivisionByZero? <==> known && times == 0)
  {
    hide ConversionTable, Strtol;
    var table := ConversionTable(base);
    FindExact(table, unit, 0);
    TableRates(base);
    if row :| row in table && row.unit == unit {
      var i :| 0 <= i < |table| && table[i] == row;
    }
  }

  /** A text that begins with neither a digit, a sign nor a point is no number. */
  lemma ParseNothing(value: string, baseUnit: Option<string>)
    requires var v := Strip(value); v == "" || (!IsDigit(v[0], 10) && v[0] !in ['+', '-', '.'])
    ensures ParseInt(value, baseUnit) == Unknown
  {
    hide Strip;
    var v := Strip(value);
    assert v[SignLength(v)..] == v;
    assert CountDigits(v, 10) == 0 && CountDigits(v, 8) == 0;
  }

  // ---------------------------------------------------------------- the round trip

  /** Reading back what was printed converts the number in its unit. */
  lemma ReadPrinted(k: int, base: string, p: nat, baseUnit: string)
    requires IsPlain(base) && p < |ConversionTable(base)|
    ensures var unit := ConversionTable(base)[p].unit;
            ParseInt(Print(k) + unit, Some(baseUnit)) ==
            match ConvertToBaseUnit(k as real, unit, Some(baseUnit)) {
              case Converted(x) => Converted(Round(x))
              case Unknown => Unknown
              case DivisionByZero => DivisionByZero
            }
  {
    hide ConversionTable, Strtol, ConvertToBaseUnit, Strtod, Print, Round;
    UnitAt(base, p);
    StrtolPrint(k, ConversionTable(base)[p].unit, true);
  }

  lemma ConvertAt(k: int, base: string, p: nat, baseUnit: string, times: int)
    requires IsPlain(base) && p < |ConversionTable(base)|
    requires Strtol(baseUnit, false) == (Some(times), base) && times >= 1
    ensures p + 1 < |ConversionTable(base)| ==> Rate(base, p + 1) > 0.0
    ensures var scaled := Scale(k as real, Rate(base, p), times);
            ConvertToBaseUnit(k as real, ConversionTable(base)[p].unit, Some(baseUnit)) ==
            Converted(if p + 1 < |ConversionTable(base)| then RoundTo(scaled, Rate(base, p + 1)) else scaled)
  {
    hide ConversionTable, Strtol, Find, Scale, RoundTo;
    UnitAt(base, p);
    RateIn(base, p);
    if p + 1 < |ConversionTable(base)| {
      RateIn(base, p + 1);
    }
  }

  lemma RateIn(base: string, i: nat)
    requires i < |ConversionTable(base)|
    ensures base in ConversionTable(base)[i].rates && Rate(base, i) == ConversionTable(base)[i].rates[base] > 0.0
  {
    TableRates(base);
    assert ConversionTable(base)[i] in ConversionTable(base);
  }

  lemma Quotient(x: real, rate: real, y: real)
    requires rate != 0.0 && y * rate == x
    ensures x / rate == y
  {}

  lemma RoundToFraction(v: int, rate: real)
    requires 0.0 < rate < 1.0 && Integral(1.0 / rate)
    ensures RoundTo(v as real, rate) == v as real
  {
    hide Round, Integral;
    var k := Whole(1.0 / rate);
    assert k as real * rate == 1.0;
    assert (v * k) as real == v as real * k as real;
    assert (v as real * k as real) * rate == v as real * (k as real * rate);
    Quotient(v as real, rate, (v * k) as real);
    RoundWhole(v * k);
  }

  lemma RoundToWhole(v: int, rate: real) returns (k: int)
    requires rate >= 1.0 && Integral(rate)
    ensures rate.Floor >= 1
    ensures RoundTo(v as real, rate) == (k * rate.Floor) as real
    ensures v % rate.Floor == 0 ==> k * rate.Floor == v
  {
    hide Round, Integral;
    var r := Whole(rate);
    k := Round(v as real / rate);
    assert k as real * rate == (k * r) as real;
    if v % r == 0 {
      WholeQuotient(v, rate);
      RoundWhole(v / r);
    }
  }

  /** Rounding to a smaller unit keeps a value exactly when it is a whole number of that unit. */
  lemma RoundToExact(v: int, rate: real)
    requires rate > 0.0
    requires if rate < 1.0 then Integral(1.0 / rate) else Integral(rate)
    ensures Round(RoundTo(v as real, rate)) == v <==> rate < 1.0 || v % rate.Floor == 0
  {
    hide Round, Integral, RoundTo;
    if rate < 1.0 {
      RoundToFraction(v, rate);
      RoundWhole(v);
    } else {
      var k := RoundToWhole(v, rate);
      RoundWhole(k * rate.Floor);
      MultipleLeavesNothing(k, rate.Floor);
    }
  }

  lemma Whole(x: real) returns (k: int)
    requires Integral(x)
    ensures k == x.Floor && x == k as real
  {
    k := x.Floor;
  }

  /** The unit below the printed one does not disturb the value. */
  predicate Undisturbed(v: int, base: string, p: nat)
    requires p < |ConversionTable(base)|
  {
    p + 1 == |ConversionTable(base)| || Rate(base, p + 1) < 1.0 || v % Rate(base, p + 1).Floor == 0
  }

  /** Printing and reading undo each other, for base units that are a multiple of a plain one, exactly when the
      value is a whole number of the unit below the printed one. */
  lemma RoundTripExact(v: int, base: string, baseUnit: string, times: int) returns (p: nat)
    requires IsPlain(base) && Strtol(baseUnit, false) == (Some(times), base) && times >= 1
    ensures p < |ConversionTable(base)| && 1.0 <= Rate(base, p) && Rate(base, p).Floor >= 1
    ensures (v * times) % Rate(base, p).Floor == 0
    ensures forall j :: 0 <= j < p ==> Rate(base, j).Floor > 1 && (v * times) % Rate(base, j).Floor != 0
    ensures Printed(v * times, base).Some?
    ensures ParseInt(Printed(v * times, base).value, Some(baseUnit)) == Converted(v) <==> Undisturbed(v, base, p)
  {
    hide ConversionTable, Strtol, Round, Print, Printed, ParseInt, ConvertToBaseUnit, Integral, Rate, IsPlain;
    p := PrintedPlace(v * times, base);
    RateAt(base, p);
    var k := (v * times) / Rate(base, p).Floor;
    WholeQuotient(v * times, Rate(base, p));
    var whole := Whole(Rate(base, p));
    ReadPrinted(k, base, p, baseUnit);
    ReadBack(v, times, k, base, p, baseUnit);
  }

  /** The conversion of the printed number gives the value, rounded to the next smaller unit. */
  lemma ReadBack(v: int, times: int, k: int, base: string, p: nat, baseUnit: string)
    requires IsPlain(base) && p < |ConversionTable(base)|
    requires Strtol(baseUnit, false) == (Some(times), base) && times >= 1
    requires Integral(Rate(base, p)) && k * Rate(base, p).Floor == v * times
    ensures var converted := ConvertToBaseUnit(k as real, ConversionTable(base)[p].unit, Some(baseUnit));
            converted.Converted? && (Round(converted.value) == v <==> Undisturbed(v, base, p))
  {
    hide ConversionTable, Strtol, Round, RoundTo, Scale, ConvertToBaseUnit, Integral, Rate, IsPlain;
    ConvertAt(k, base, p, baseUnit, times);
    ScaledBack(v, times, k, Rate(base, p));
    if p + 1 < |ConversionTable(base)| {
      RateBelow(base, p + 1);
      RoundToExact(v, Rate(base, p + 1));
    } else {
      RoundWhole(v);
    }
  }

  lemma RateBelow(base: string, i: nat)
    requires IsPlain(base) && i < |ConversionTable(base)|
    ensures Rate(base, i) > 0.0
    ensures if Rate(base, i) < 1.0 then Integral(1.0 / Rate(base, i)) else Integral(Rate(base, i))
  {
    hide ConversionTable, Integral, Rate, BasePlace, IsPlain;
    RateAt(base, i);
  }

  lemma ScaledBack(v: int, times: int, k: int, rate: real)
    requires times >= 1 && Integral(rate) && k * rate.Floor == v * times
    ensures Scale(k as real, rate, times) == v as real
  {
    assert k as real * rate == (v * times) as real == v as real * times as real;
    assert k as real * (rate / times as real) == (k as real * rate) / times as real;
  }

  lemma StrtolPlain(base: string)
    requires IsPlain(base)
    ensures Strtol(base, false) == (Some(1), base) && Ends(base)
  {
    StripClean(base);
    assert CountDigits(base, 10) == 0;
  }

  /** For a plain base unit, so for most settings, the round trip is the identity. */
  lemma RoundTrip(v: int, base: string)
    requires IsPlain(base)
    ensures Printed(v, base).Some? && ParseInt(Printed(v, base).value, Some(base)) == Converted(v)
  {
    hide ConversionTable, Strtol, Round, Printed, ParseInt, Integral, Rate, BasePlace, IsPlain;
    StrtolPlain(base);
    var p := RoundTripExact(v, base, base, 1);
    assert v * 1 == v;
    MultipleUndisturbed(v, base, p, 1);
  }

  /** So it is for a multiple that divides the step to the next smaller unit, like the 8kB of a page. */
  lemma MultipleUndisturbed(v: int, base: string, p: nat, times: int)
    requires IsPlain(base) && p < |ConversionTable(base)| && times >= 1
    requires Rate(base, p) >= 1.0 && Rate(base, p).Floor >= 1 && (v * times) % Rate(base, p).Floor == 0
    requires p + 1 < |ConversionTable(base)| && Rate(base, p + 1) >= 1.0 ==>
               (Rate(base, p) / Rate(base, p + 1)).Floor % times == 0
    ensures Undisturbed(v, base, p)
  {
    hide ConversionTable, Rate, IsPlain, BasePlace;
    RateAt(base, p);
    if p + 1 < |ConversionTable(base)| && Rate(base, p + 1) >= 1.0 {
      RateBelow(base, p + 1);
      RateBelow(base, p);
      var rate := Whole(Rate(base, p));
      var next := Whole(Rate(base, p + 1));
      var step := Whole(Rate(base, p) / Rate(base, p + 1));
      assert rate == step * next by {
        assert Rate(base, p) == (Rate(base, p) / Rate(base, p + 1)) * Rate(base, p + 1);
        assert step as real * next as real == (step * next) as real;
      }
      var share := step / times;
      var k := (v * times) / rate;
      assert v * times == k * (share * times * next);
      assert v * times == (k * share * next) * times;
      assert v == k * share * next;
      MultipleLeavesNothing(k * share, next);
    }
  }

  /** With a larger multiple it can be lost: 512 units of 2048MB are printed as 1TB, which is half a step. */
  lemma RoundTripLoses()
    ensures Strtol("2048MB", false) == (Some(2048), "MB")
    ensures Printed(512 * 2048, "MB").Some?
    ensures ParseInt(Printed(512 * 2048, "MB").value, Some("2048MB")) != Converted(512)
  {
    hide Strtol, Printed, ParseInt, Rate, ConversionTable;
    assert Print(2048) == "2048" by {
      assert Decimal(2) == "2" && Decimal(20) == "20" && Decimal(204) == "204";
    }
    assert "2048" + "MB" == "2048MB";
    StrtolPrint(2048, "MB", false);
    var p := RoundTripExact(512, "MB", "2048MB", 2048);
    ColumnRates("MB");
    assert Rate("MB", 0) == 1048576.0 && Rate("MB", 1) == 1024.0;
  }
}

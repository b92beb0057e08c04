/** Calendar dates as a date criterion reads them: `strptime(value, "%d/%m/%Y")`
    in Python 2.7, which matches the day against `3[01]|[12]\d|0[1-9]|[1-9]| [1-9]`,
    the month against `1[0-2]|0[1-9]|[1-9]` and the year against four digits,
    requires the whole string to match, and then refuses a day the month does
    not have or a year outside 1..9999. */
module Dates {
  import opened Base
  import opened Text

  datatype Date = Date(day: nat, month: nat, year: nat)

  predicate IsLeapYear(year: nat) {
    year % 4 == 0 && (year % 100 != 0 || year % 400 == 0)
  }

  function DaysInMonth(month: nat, year: nat): nat {
    if month == 2 then (if IsLeapYear(year) then 29 else 28)
    else if month == 4 || month == 6 || month == 9 || month == 11 then 30
    else 31
  }

  /** A date `datetime.date` accepts. */
  predicate ValidDate(d: Date) {
    1 <= d.year <= 9999 && 1 <= d.month <= 12 && 1 <= d.day <= DaysInMonth(d.month, d.year)
  }

  predicate IsDigit(c: char) { '0' <= c <= '9' }

  predicate AllDigits(s: string) {
    forall i :: 0 <= i < |s| ==> IsDigit(s[i])
  }

  function DigitValue(c: char): nat
    requires IsDigit(c)
  {
    c as int - '0' as int
  }

  /** A string of `k` digits reads as a number below `10^k`. */
  lemma {:induction false} NumberBound(s: string)
    requires AllDigits(s)
    ensures Number(s) < Pow10(|s|)
  {
    if s != [] {
      var init := s[..|s| - 1];
      assert AllDigits(init);
      NumberBound(init);
      assert Number(s) == Number(init) * 10 + DigitValue(s[|s| - 1]);
      assert Number(init) + 1 <= Pow10(|init|);
      assert (Number(init) + 1) * 10 <= Pow10(|init|) * 10;
    }
  }

  /** The decimal value of a string of digits. */
  function Number(s: string): nat
    requires AllDigits(s)
  {
    if s == [] then 0 else Number(s[..|s| - 1]) * 10 + DigitValue(s[|s| - 1])
  }

  function Digit(n: nat): (c: char)
    requires n < 10
    ensures IsDigit(c) && DigitValue(c) == n
  {
    ('0' as int + n) as char
  }

  /** `t` spells the day `day`: two digits with a leading zero, or for days
      below ten one digit, alone or after a space. */
  predicate SpellsDay(t: string, day: nat) {
    t == Padded(day, 2) || (day <= 9 && (t == Padded(day, 1) || t == [' '] + Padded(day, 1)))
  }

  /** `t` spells the month `month`: two digits, or one for months below ten. */
  predicate SpellsMonth(t: string, month: nat) {
    t == Padded(month, 2) || (month <= 9 && t == Padded(month, 1))
  }

  /** The day token: `3[01]|[12]\d|0[1-9]|[1-9]| [1-9]`. */
  function ParseDay(t: string): (r: Option<nat>)
    ensures r.Some? ==> 1 <= r.value <= 31
    ensures r.Some? ==> 1 <= |t| <= 2
    ensures r.Some? ==> SpellsDay(t, r.value)
  {
    if |t| == 1 && IsDigit(t[0]) && t[0] != '0' then
      SingleDigit(t[0]);
      Some(DigitValue(t[0]))
    else if |t| == 2 && t[0] == ' ' && IsDigit(t[1]) && t[1] != '0' then
      SingleDigit(t[1]);
      assert t == [' '] + [t[1]];
      Some(DigitValue(t[1]))
    else if |t| == 2 && AllDigits(t) && 1 <= Number(t) <= 31 then
      PaddedNumber(t);
      Some(Number(t))
    else None
  }

  /** The month token: `1[0-2]|0[1-9]|[1-9]`. */
  function ParseMonth(t: string): (r: Option<nat>)
    ensures r.Some? ==> 1 <= r.value <= 12
    ensures r.Some? ==> 1 <= |t| <= 2
    ensures r.Some? ==> SpellsMonth(t, r.value)
  {
    if |t| == 1 && IsDigit(t[0]) && t[0] != '0' then
      SingleDigit(t[0]);
      Some(DigitValue(t[0]))
    else if |t| == 2 && AllDigits(t) && 1 <= Number(t) <= 12 then
      PaddedNumber(t);
      Some(Number(t))
    else None
  }

  /** The year token: exactly four digits. */
  function ParseYear(t: string): (r: Option<nat>)
    ensures r.Some? <==> |t| == 4 && AllDigits(t)
    ensures r.Some? ==> r.value <= 9999
    ensures r.Some? ==> t == Padded(r.value, 4)
  {
    if |t| == 4 && AllDigits(t) then NumberBound(t); PaddedNumber(t); Some(Number(t)) else None
  }

  /** `datetime.strptime(s, "%d/%m/%Y")`: None where it raises ValueError.
      A parsed date is real, and the three slash-separated pieces spell it. */
  function ParseDate(s: string): (r: Option<Date>)
    ensures r.Some? ==> ValidDate(r.value)
    ensures r.Some? ==> var parts := Split(s, '/');
                        |parts| == 3 && SpellsDay(parts[0], r.value.day)
                        && SpellsMonth(parts[1], r.value.month) && parts[2] == Padded(r.value.year, 4)
  {
    var parts := Split(s, '/');
    if |parts| != 3 then None
    else
      match (ParseDay(parts[0]), ParseMonth(parts[1]), ParseYear(parts[2]))
      case (Some(day), Some(month), Some(year)) =>
        var d := Date(day, month, year);
        if ValidDate(d) then Some(d) else None
      case _ => None
  }

  function Pow10(k: nat): (r: nat)
    ensures r >= 1
  {
    if k == 0 then 1 else 10 * Pow10(k - 1)
  }

  /** `n` in `width` decimal digits with leading zeros, as `%0<width>d`. */
  function Padded(n: nat, width: nat): (s: string)
    ensures |s| == width && AllDigits(s)
  {
    if width == 0 then [] else Padded(n / 10, width - 1) + [Digit(n % 10)]
  }

  /** The `dd/mm/yyyy` spelling of a day, a month and a year. */
  function Spelling(day: nat, month: nat, year: nat): string
  {
    Join([Padded(day, 2), Padded(month, 2), Padded(year, 4)], '/')
  }

  /** One digit is the one-digit spelling of its value. */
  lemma SingleDigit(c: char)
    requires IsDigit(c)
    ensures [c] == Padded(DigitValue(c), 1)
  {
    assert Padded(DigitValue(c), 1) == Padded(DigitValue(c) / 10, 0) + [Digit(DigitValue(c) % 10)];
  }

  /** Digits are the zero-padded spelling of the number they read as. */
  lemma {:induction false} PaddedNumber(s: string)
    requires AllDigits(s)
    ensures Padded(Number(s), |s|) == s
  {
    if s != [] {
      var init, last := s[..|s| - 1], s[|s| - 1];
      assert AllDigits(init);
      PaddedNumber(init);
      var n := Number(s);
      assert n == Number(init) * 10 + DigitValue(last);
      assert n / 10 == Number(init) && n % 10 == DigitValue(last);
      assert Digit(DigitValue(last)) == last;
      assert s == init + [last];
    }
  }

  lemma {:induction false} NumberPadded(n: nat, width: nat)
    requires n < Pow10(width)
    ensures Number(Padded(n, width)) == n
  {
    if width > 0 {
      var q, d := n / 10, n % 10;
      assert n == q * 10 + d && d < 10;
      assert q < Pow10(width - 1);
      NumberPadded(q, width - 1);
      var s := Padded(n, width);
      assert s == Padded(q, width - 1) + [Digit(d)];
      assert s[..|s| - 1] == Padded(q, width - 1);
      assert Number(s) == Number(Padded(q, width - 1)) * 10 + DigitValue(Digit(d));
    }
  }

  lemma DayToken(day: nat)
    requires day < 100
    ensures ParseDay(Padded(day, 2)) == if 1 <= day <= 31 then Some(day) else None
  {
    NumberPadded(day, 2);
  }

  lemma MonthToken(month: nat)
    requires month < 100
    ensures ParseMonth(Padded(month, 2)) == if 1 <= month <= 12 then Some(month) else None
  {
    NumberPadded(month, 2);
  }

  lemma YearToken(year: nat)
    requires year < 10000
    ensures ParseYear(Padded(year, 4)) == Some(year)
  {
    NumberPadded(year, 4);
  }

  lemma DigitsHaveNoSlash(s: string)
    requires AllDigits(s)
    ensures '/' !in s
  {
  }

  /** Once the string splits into three tokens, the date is read from them. */
  lemma ParseTokens(s: string, dayToken: string, monthToken: string, yearToken: string,
                    day: nat, month: nat, year: nat)
    requires Split(s, '/') == [dayToken, monthToken, yearToken]
    requires ParseDay(dayToken) == if 1 <= day <= 31 then Some(day) else None
    requires ParseMonth(monthToken) == if 1 <= month <= 12 then Some(month) else None
    requires ParseYear(yearToken) == Some(year)
    ensures ParseDate(s) == if ValidDate(Date(day, month, year)) then Some(Date(day, month, year)) else None
  {
  }

  /** A zero-padded `dd/mm/yyyy` string parses exactly when it names a real
      date, and then to that date. */
  lemma ParseSpelling(day: nat, month: nat, year: nat)
    requires day < 100 && month < 100 && year < 10000
    ensures ParseDate(Spelling(day, month, year))
            == if ValidDate(Date(day, month, year)) then Some(Date(day, month, year)) else None
  {
    var dayToken, monthToken, yearToken := Padded(day, 2), Padded(month, 2), Padded(year, 4);
    DigitsHaveNoSlash(dayToken);
    DigitsHaveNoSlash(monthToken);
    DigitsHaveNoSlash(yearToken);
    SplitJoin([dayToken, monthToken, yearToken], '/');
    DayToken(day);
    MonthToken(month);
    YearToken(year);
    ParseTokens(Spelling(day, month, year), dayToken, monthToken, yearToken, day, month, year);
  }

  /** A spelled day token reads as that day exactly when the day is 1..31. */
  lemma SpelledDayToken(t: string, day: nat)
    requires day < 100 && SpellsDay(t, day)
    ensures ParseDay(t) == if 1 <= day <= 31 then Some(day) else None
  {
    if t == Padded(day, 2) {
      DayToken(day);
    } else {
      assert Padded(day, 1) == [Digit(day)];
    }
  }

  /** A spelled month token reads as that month exactly when the month is 1..12. */
  lemma SpelledMonthToken(t: string, month: nat)
    requires month < 100 && SpellsMonth(t, month)
    ensures ParseMonth(t) == if 1 <= month <= 12 then Some(month) else None
  {
    if t == Padded(month, 2) {
      MonthToken(month);
    } else {
      assert Padded(month, 1) == [Digit(month)];
    }
  }

  lemma JoinThree(a: string, b: string, c: string, sep: char)
    ensures Join([a, b, c], sep) == a + [sep] + b + [sep] + c
  {
    assert [a, b, c][1..] == [b, c];
    assert [b, c][1..] == [c];
    assert Join([b, c], sep) == b + [sep] + c;
    assert Join([a, b, c], sep) == a + [sep] + (b + [sep] + c);
  }

  lemma SpelledTokensHaveNoSlash(t: string, n: nat, width: nat)
    requires t == Padded(n, width) || t == [' '] + Padded(n, width)
    ensures '/' !in t
  {
    DigitsHaveNoSlash(Padded(n, width));
  }

  /** Every string `strptime` accepts is a spelled day, a slash, a spelled
      month, a slash and the four-digit year of the date it returns. */
  lemma ParseDateSound(s: string)
    requires ParseDate(s).Some?
    ensures var d := ParseDate(s).value;
            exists dayToken, monthToken :: SpellsDay(dayToken, d.day) && SpellsMonth(monthToken, d.month)
              && s == dayToken + "/" + monthToken + "/" + Padded(d.year, 4)
  {
    var parts := Split(s, '/');
    JoinSplit(s, '/');
    ThreePieces(s, parts, '/');
    assert SpellsDay(parts[0], ParseDate(s).value.day) && SpellsMonth(parts[1], ParseDate(s).value.month);
  }

  lemma ThreePieces(s: string, parts: seq<string>, sep: char)
    requires |parts| == 3 && Join(parts, sep) == s
    ensures s == parts[0] + [sep] + parts[1] + [sep] + parts[2]
  {
    assert parts == [parts[0], parts[1], parts[2]];
    JoinThree(parts[0], parts[1], parts[2], sep);
  }

  /** The converse: a spelled day, month and four-digit year parse exactly
      when they name a real date, and then to that date. */
  lemma ParseSpelledDate(dayToken: string, monthToken: string, day: nat, month: nat, year: nat)
    requires day < 100 && month < 100 && year < 10000
    requires SpellsDay(dayToken, day) && SpellsMonth(monthToken, month)
    ensures ParseDate(dayToken + "/" + monthToken + "/" + Padded(year, 4))
            == if ValidDate(Date(day, month, year)) then Some(Date(day, month, year)) else None
  {
    var yearToken := Padded(year, 4);
    var s := dayToken + "/" + monthToken + "/" + yearToken;
    if dayToken == Padded(day, 2) { DigitsHaveNoSlash(dayToken); }
    else { SpelledTokensHaveNoSlash(dayToken, day, 1); }
    DigitsHaveNoSlash(monthToken);
    DigitsHaveNoSlash(yearToken);
    JoinThree(dayToken, monthToken, yearToken, '/');
    SplitJoin([dayToken, monthToken, yearToken], '/');
    SpelledDayToken(dayToken, day);
    SpelledMonthToken(monthToken, month);
    YearToken(year);
    ParseTokens(s, dayToken, monthToken, yearToken, day, month, year);
  }
}

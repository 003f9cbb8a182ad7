/**
 * The account record and the value types it is made of: the account type
 * enumeration, a calendar date and a decimal amount, with the text forms the
 * form uses for them (`Enum.name` / `valueOf`, `LocalDate.toString`,
 * `Boolean.toString`).
 */
module Dados {
  import opened Texto

  /** `TipoContaEnum`: income or expense. */
  datatype TipoContaEnum = RECEITA | DESPESA

  /** `Enum.name` of an account type. */
  function Name(t: TipoContaEnum): string {
    match t
    case RECEITA => "RECEITA"
    case DESPESA => "DESPESA"
  }

  /**
   * `TipoContaEnum.valueOf(s)`: the constant whose name is exactly `s`; the
   * source's call throws for any other text, here `None`.
   */
  function ValueOf(s: string): (r: Option<TipoContaEnum>)
    ensures forall t: TipoContaEnum :: r == Some(t) <==> Name(t) == s
  {
    if s == "RECEITA" then Some(RECEITA)
    else if s == "DESPESA" then Some(DESPESA)
    else None
  }

  /** `java.time.LocalDate`, by its three fields. */
  datatype LocalDate = LocalDate(year: int, month: int, day: int)

  /** `java.math.BigDecimal`: an unscaled value and a scale. */
  datatype BigDecimal = BigDecimal(unscaledValue: int, scale: int)

  /** The account record (`Conta`). An `id` of 0 marks a record not yet stored. */
  datatype Conta = Conta(
    id: int,
    descricao: string,
    data: LocalDate,
    valor: BigDecimal,
    paga: bool,
    tipo: TipoContaEnum)

  /** `Boolean.toString()`. */
  function BooleanToString(b: bool): (s: string) {
    if b then "true" else "false"
  }

  /**
   * The year as `LocalDate.toString` writes it: a year of 0..9999 as exactly
   * four digits, zero-padded; a negative year as '-' and at least four digits;
   * a year above 9999 as '+' and its digits.
   */
  function IsoYear(year: int): (r: string)
    ensures 0 <= year <= 9999 ==> |r| == 4 && AllDigits(r) && ValueOfDigits(r) == year
    ensures year < 0 ==> |r| >= 5 && r[0] == '-' && AllDigits(r[1..]) && ValueOfDigits(r[1..]) == -year
    ensures -9999 <= year < 0 ==> |r| == 5
    ensures year > 9999 ==> |r| >= 6 && r[0] == '+' && AllDigits(r[1..]) && ValueOfDigits(r[1..]) == year
  {
    if -1000 < year < 1000 then
      if year < 0 then
        PaddedNegativeYear(year - 10000);
        DeleteCharAt(IntToString(year - 10000), 1)
      else
        PaddedYear(year + 10000);
        DeleteCharAt(IntToString(year + 10000), 0)
    else
      WideYear(year);
      (if year > 9999 then "+" else "") + IntToString(year)
  }

  /** Five digits starting with 1 lose that 1 and keep the value minus 10^4. */
  lemma DropLeadingOne(s: string)
    requires AllDigits(s) && 10000 <= ValueOfDigits(s) < 20000
    requires 4 < |s| <= 5
    ensures s[0] == '1' && AllDigits(s[1..]) && ValueOfDigits(s[1..]) == ValueOfDigits(s) - 10000
  {
    ValueOfDigitsCons(s);
    ValueOfDigitsBound(s[1..]);
    assert Pow10(4) == 10000;
    var d := DigitValue(s[0]);
    assert d * 10000 + ValueOfDigits(s[1..]) == ValueOfDigits(s);
    assert d == 1;
  }

  /** `(year + 10000).toString()` without its first character, for 0 <= year < 1000. */
  lemma PaddedYear(v: int)
    requires 10000 <= v < 11000
    ensures var r := DeleteCharAt(IntToString(v), 0);
      |r| == 4 && AllDigits(r) && ValueOfDigits(r) == v - 10000
  {
    var s := IntToString(v);
    assert s == DigitsOf(v);
    DigitsOfLength(v, 4);
    DigitsOfShort(v, 5);
    DropLeadingOne(s);
    assert DeleteCharAt(s, 0) == s[1..];
  }

  /** `(year - 10000).toString()` without its second character, for -1000 < year < 0. */
  lemma PaddedNegativeYear(v: int)
    requires -11000 < v <= -10000
    ensures var r := DeleteCharAt(IntToString(v), 1);
      |r| == 5 && r[0] == '-' && AllDigits(r[1..]) && ValueOfDigits(r[1..]) == -v - 10000
  {
    var s := IntToString(v);
    var m := s[1..];
    assert m == DigitsOf(-v);
    DigitsOfLength(-v, 4);
    DigitsOfShort(-v, 5);
    DropLeadingOne(m);
    assert DeleteCharAt(s, 1)[1..] == m[1..];
  }

  /** The year field for a year of 1000 or more in magnitude: its own digits, after '+' above 9999. */
  lemma WideYear(year: int)
    requires year <= -1000 || 1000 <= year
    ensures var r := (if year > 9999 then "+" else "") + IntToString(year);
      && (1000 <= year <= 9999 ==> |r| == 4 && AllDigits(r) && ValueOfDigits(r) == year)
      && (year < 0 ==> |r| >= 5 && r[0] == '-' && AllDigits(r[1..]) && ValueOfDigits(r[1..]) == -year)
      && (-9999 <= year < 0 ==> |r| == 5)
      && (year > 9999 ==> |r| >= 6 && r[0] == '+' && AllDigits(r[1..]) && ValueOfDigits(r[1..]) == year)
  {
    var s := IntToString(year);
    var n := if year < 0 then -year else year;
    assert s == (if year < 0 then "-" else "") + DigitsOf(n);
    assert Pow10(3) == 1000 && Pow10(4) == 10000;
    DigitsOfLength(n, 3);
    if n > 9999 {
      DigitsOfLength(n, 4);
    } else {
      DigitsOfShort(n, 4);
    }
    if year > 9999 {
      assert ("+" + s)[1..] == s;
    } else {
      assert "" + s == s;
    }
  }

  /**
   * `LocalDate.toString()`: the ISO-8601 form `yyyy-MM-dd`. Whatever the year,
   * its third character is a digit; for a year of 0..9999 it is exactly ten
   * characters: the year in four digits, '-', the month in two, '-', the day
   * in two.
   */
  function IsoString(d: LocalDate): (r: string)
    ensures |r| > 2 && IsDigit(r[2])
    ensures 0 <= d.year <= 9999 && 1 <= d.month <= 12 && 1 <= d.day <= 31 ==>
      && |r| == 10 && r[4] == '-' && r[7] == '-'
      && AllDigits(r[..4]) && ValueOfDigits(r[..4]) == d.year
      && AllDigits(r[5..7]) && ValueOfDigits(r[5..7]) == d.month
      && AllDigits(r[8..]) && ValueOfDigits(r[8..]) == d.day
  {
    IsoFields(d.year, IsoYear(d.year), IsoMonthDay(d.month, d.day));
    IsoYear(d.year) + IsoMonthDay(d.month, d.day)
  }

  /** Where the year and the `-MM-dd` tail sit in their concatenation. */
  lemma IsoFields(year: int, y: string, md: string)
    requires y == IsoYear(year)
    ensures |y + md| > 2 && IsDigit((y + md)[2])
    ensures |y| == 4 && |md| == 6 ==>
      (y + md)[..4] == y && (y + md)[4] == md[0] && (y + md)[7] == md[3]
      && (y + md)[5..7] == md[1..3] && (y + md)[8..] == md[4..]
  {
  }

  /**
   * The `-MM-dd` tail of `LocalDate.toString()`: each of month and day in two
   * digits, each after a '-'.
   */
  function IsoMonthDay(month: int, day: int): (r: string)
    ensures 0 <= month <= 99 && 0 <= day <= 99 ==>
      && |r| == 6 && r[0] == '-' && r[3] == '-'
      && AllDigits(r[1..3]) && ValueOfDigits(r[1..3]) == month
      && AllDigits(r[4..]) && ValueOfDigits(r[4..]) == day
  {
    MonthDayFields(TwoDigits(month), TwoDigits(day));
    "-" + TwoDigits(month) + "-" + TwoDigits(day)
  }

  /** Where the two fields sit in `-MM-dd`. */
  lemma MonthDayFields(m: string, dd: string)
    ensures var r := "-" + m + "-" + dd;
      |m| == 2 && |dd| == 2 ==> |r| == 6 && r[3] == '-' && r[1..3] == m && r[4..] == dd
  {
  }

  /** A month or day field: a '0' before a single digit, then `toString()`. */
  function TwoDigits(n: int): (r: string)
    ensures 0 <= n <= 99 ==> |r| == 2 && AllDigits(r) && ValueOfDigits(r) == n
  {
    if n < 10 then
      assert 0 <= n ==> ValueOfDigits("0" + IntToString(n)) == ValueOfDigits(IntToString(n)) by {
        if 0 <= n {
          var s := "0" + IntToString(n);
          assert s[..1] == "0" && s[..1][..0] == [];
        }
      }
      "0" + IntToString(n)
    else
      assert n <= 99 ==> |IntToString(n)| == 2 by {
        if n <= 99 {
          assert Pow10(1) == 10 && Pow10(2) == 100;
          DigitsOfLength(n, 1);
          DigitsOfShort(n, 2);
        }
      }
      IntToString(n)
  }

  /**
   * What every parser of the pattern `dd/MM/yyyy` accepts at least: day and
   * month are fixed-width two-digit fields, each followed by '/'.
   */
  ghost predicate FollowsDayMonthYear(parse: string -> Option<LocalDate>) {
    forall s :: parse(s).Some? ==>
      && |s| >= 6
      && IsDigit(s[0]) && IsDigit(s[1]) && s[2] == '/'
      && IsDigit(s[3]) && IsDigit(s[4]) && s[5] == '/'
  }

  /** No `dd/MM/yyyy` parser accepts the text `LocalDate.toString` produces. */
  lemma IsoStringNotDayMonthYear(parse: string -> Option<LocalDate>, d: LocalDate)
    requires FollowsDayMonthYear(parse)
    ensures parse(IsoString(d)).None?
    ensures !IsBlank(IsoString(d))
  {
  }
}

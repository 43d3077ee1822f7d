/**
 * The period helpers of the pipeline (app/pipeline.py:20-55): month
 * arithmetic, the templated-URL test, the substitution of `{year}` and
 * `{month}` into a schedule URL (Python's `str.format` with the two keyword
 * arguments), the month label used as a cache suffix and the number of
 * periods a strategy walks through.
 */
module Periods {
  import opened Common
  import opened Models
  import Scraper

  // ---------------------------------------------------------------------
  // Month arithmetic (app/pipeline.py:23-33)
  // ---------------------------------------------------------------------

  /** Months counted from year 0: the first of the month `dt` falls in. */
  function MonthIndex(year: int, month: int): int
  {
    year * 12 + (month - 1)
  }

  /**
   * The first day of the month `months` after the month of `dt`, keeping
   * the time of day; `datetime.replace` refuses a year outside 1..9999.
   */
  function MonthsLater(dt: DateTime, months: int): (r: Result<DateTime>)
  {
    var total := MonthIndex(dt.year, dt.month) + months;
    var y := total / 12;
    if MinYear <= y <= MaxYear then Ok(DateTime(y, total % 12 + 1, 1, dt.clock))
    else Err(ValueError("year is out of range"))
  }

  /**
   * The result is the first of a month in 1..12, exactly `months` months
   * after the month of `dt`, with the time of day kept; it fails exactly when
   * that month's year leaves 1..9999.
   */
  lemma MonthsLaterShape(dt: DateTime, months: int)
    ensures var r := MonthsLater(dt, months);
            (r.Ok? <==> MinYear <= (MonthIndex(dt.year, dt.month) + months) / 12 <= MaxYear) &&
            (r.Ok? ==> r.value.day == 1 && 1 <= r.value.month <= 12 && r.value.clock == dt.clock &&
                       MonthIndex(r.value.year, r.value.month) == MonthIndex(dt.year, dt.month) + months &&
                       ValidDateTime(r.value))
  {
  }

  /** Adding months in two steps is adding them in one. */
  lemma MonthsLaterCompose(dt: DateTime, a: int, b: int)
    requires MonthsLater(dt, a).Ok?
    ensures MonthsLater(MonthsLater(dt, a).value, b) == MonthsLater(dt, a + b)
  {
    var mid := MonthsLater(dt, a).value;
    assert MonthIndex(mid.year, mid.month) == MonthIndex(dt.year, dt.month) + a;
  }

  /** Euclidean division by 12 is determined by a quotient and a remainder in range. */
  lemma DivTwelve(total: int, q: int, rem: int)
    requires total == q * 12 + rem && 0 <= rem < 12
    ensures total / 12 == q && total % 12 == rem
  {
  }

  /** `_add_months`: the month is moved by `months`, then carried into the year one year at a time. */
  method AddMonths(dt: DateTime, months: int) returns (r: Result<DateTime>)
    ensures r == MonthsLater(dt, months)
  {
    var y, m := dt.year, dt.month;
    m := m + months;
    while m > 12
      invariant y * 12 + m == dt.year * 12 + dt.month + months
      decreases m
    {
      y := y + 1;
      m := m - 12;
    }
    while m < 1
      invariant y * 12 + m == dt.year * 12 + dt.month + months
      invariant m <= 12
      decreases 1 - m
    {
      y := y - 1;
      m := m + 12;
    }
    DivTwelve(MonthIndex(dt.year, dt.month) + months, y, m - 1);
    if MinYear <= y <= MaxYear {
      r := Ok(DateTime(y, m, 1, dt.clock));
    } else {
      r := Err(ValueError("year is out of range"));
    }
  }

  // ---------------------------------------------------------------------
  // Templated schedule URLs (app/pipeline.py:36-55)
  // ---------------------------------------------------------------------

  /** `_url_is_templated`: the URL contains a '{'. */
  predicate IsTemplated(url: string)
  {
    '{' in url
  }

  /** The index of the first `c` in `s`, or |s|. */
  function CharIndex(s: string, c: char): (i: nat)
    ensures i <= |s|
    ensures i < |s| ==> s[i] == c
    ensures forall j :: 0 <= j < i ==> s[j] != c
  {
    if s == [] then 0
    else if s[0] == c then 0
    else 1 + CharIndex(s[1..], c)
  }

  /** A character that ends the argument name of a replacement field. */
  predicate EndsName(c: char)
  {
    c == ':' || c == '!' || c == '.' || c == '['
  }

  /** The index where a replacement field's argument name ends: at the first ':', '!', '.' or '['. */
  function NameEnd(s: string): (i: nat)
    ensures i <= |s|
  {
    if s == [] || EndsName(s[0]) then 0 else 1 + NameEnd(s[1..])
  }

  /** A name without terminators, then a terminator or nothing: the name ends where it was placed. */
  lemma {:induction false} NameEndAfter(name: string, rest: string)
    requires forall i :: 0 <= i < |name| ==> !EndsName(name[i])
    requires rest == [] || EndsName(rest[0])
    ensures NameEnd(name + rest) == |name|
    decreases |name|
  {
    if name == [] {
      assert name + rest == rest;
    } else {
      assert (name + rest)[0] == name[0] && (name + rest)[1..] == name[1..] + rest;
      NameEndAfter(name[1..], rest);
    }
  }

  predicate AllDigits(s: string)
  {
    forall i :: 0 <= i < |s| ==> IsAsciiDigit(s[i])
  }

  /** `s` right-aligned in a field of `width` characters filled with `fill`. */
  function Pad(s: string, width: nat, fill: char): (r: string)
    ensures |r| == if |s| >= width then |s| else width
    ensures EndsWith(r, s)
  {
    var r := if |s| >= width then s else Repeat(fill, width - |s|) + s;
    assert r[|r| - |s|..] == s;
    r
  }

  /**
   * An integer formatted with a spec of the form [0][width][d]: padded with
   * zeros when the spec starts with '0', with spaces otherwise. Any other
   * spec is refused.
   */
  function FormatInt(value: nat, spec: string): Result<string>
  {
    var zero := spec != [] && spec[0] == '0';
    var rest := if zero then spec[1..] else spec;
    var n := CharCount(rest);
    if rest[n..] != [] && rest[n..] != "d" then Err(ValueError("Unsupported format specifier"))
    else Ok(Pad(NatToString(value), DigitsValue(rest[..n]), if zero then '0' else ' '))
  }

  /** The length of the run of ASCII digits at the start of `s`. */
  function CharCount(s: string): (n: nat)
    ensures n <= |s| && AllDigits(s[..n])
  {
    if s == [] || !IsAsciiDigit(s[0]) then 0
    else
      var k := CharCount(s[1..]);
      assert s[..k + 1] == [s[0]] + s[1..][..k];
      k + 1
  }

  /**
   * One replacement field `{text}` with the keyword arguments `year` and
   * `month`: an empty or numeric name asks for a positional argument there is
   * none of (IndexError), any other unknown name is a KeyError, and a known
   * name is followed by nothing or by ':' and an integer format spec.
   */
  function Field(text: string, year: nat, month: nat): Result<string>
  {
    var n := NameEnd(text);
    var name := text[..n];
    if AllDigits(name) then Err(IndexError)
    else if name != "year" && name != "month" then Err(KeyError(name))
    else
      var value := if name == "year" then year else month;
      if n == |text| then Ok(NatToString(value))
      else if text[n] == ':' then FormatInt(value, text[n + 1..])
      else Err(ValueError("unsupported replacement field"))
  }

  function Cons(s: string, r: Result<string>): Result<string>
  {
    if r.Err? then r else Ok(s + r.value)
  }

  /** What the leftmost piece of a format string produces, and how many characters it takes up. */
  datatype Piece = Piece(out: Result<string>, used: nat)

  /**
   * The leftmost piece of a format string: "{{" or "}}" stands for one brace,
   * a `{field}` is replaced, an unmatched brace is a ValueError, and any
   * other character is copied.
   */
  function NextPiece(t: string, year: nat, month: nat): (p: Piece)
    requires t != []
    ensures 1 <= p.used <= |t|
  {
    if t[0] == '{' then
      if |t| > 1 && t[1] == '{' then Piece(Ok("{"), 2)
      else
        var close := CharIndex(t, '}');
        if close == |t| then
          Piece(Err(ValueError(if |t| == 1 then "Single '{' encountered in format string"
                               else "expected '}' before end of string")), |t|)
        else Piece(Field(t[1..close], year, month), close + 1)
    else if t[0] == '}' then
      if |t| > 1 && t[1] == '}' then Piece(Ok("}"), 2)
      else Piece(Err(ValueError("Single '}' encountered in format string")), 1)
    else Piece(Ok([t[0]]), 1)
  }

  /**
   * `template.format(year=year, month=month)`: the pieces from left to
   * right, concatenated; the first failing piece decides the error.
   */
  function Format(t: string, year: nat, month: nat): Result<string>
    decreases |t|
  {
    if t == [] then Ok([])
    else
      var p := NextPiece(t, year, month);
      if p.out.Err? then p.out else Cons(p.out.value, Format(t[p.used..], year, month))
  }

  predicate BraceFree(s: string)
  {
    '{' !in s && '}' !in s
  }

  /** Literal text passes through `format` unchanged. */
  lemma {:induction false} FormatLiteral(p: string, rest: string, year: nat, month: nat)
    requires BraceFree(p)
    ensures Format(p + rest, year, month) == Cons(p, Format(rest, year, month))
    decreases |p|
  {
    if p == [] {
      assert p + rest == rest;
      var r := Format(rest, year, month);
      assert r.Ok? ==> [] + r.value == r.value;
    } else {
      var t := p + rest;
      assert t[0] == p[0] && t[1..] == p[1..] + rest;
      assert p[0] in p;
      FormatPlainChar(t, year, month);
      FormatLiteral(p[1..], rest, year, month);
      ConsCons([p[0]], p[1..], Format(rest, year, month));
      assert [p[0]] + p[1..] == p;
    }
  }

  /** A character other than a brace is copied, and formatting carries on after it. */
  lemma FormatPlainChar(t: string, year: nat, month: nat)
    requires t != [] && t[0] != '{' && t[0] != '}'
    ensures Format(t, year, month) == Cons([t[0]], Format(t[1..], year, month))
  {
    assert NextPiece(t, year, month) == Piece(Ok([t[0]]), 1);
  }

  /** Prefixing twice is prefixing with the concatenation. */
  lemma ConsCons(a: string, b: string, r: Result<string>)
    ensures Cons(a, Cons(b, r)) == Cons(a + b, r)
  {
    if r.Ok? {
      assert a + (b + r.value) == (a + b) + r.value;
    }
  }

  /** A replacement field is replaced by its value, and formatting carries on after it. */
  lemma FormatField(f: string, rest: string, year: nat, month: nat)
    requires '}' !in f && (f == [] || f[0] != '{')
    ensures var field := Field(f, year, month);
            Format("{" + f + "}" + rest, year, month) ==
              if field.Err? then Err(field.error) else Cons(field.value, Format(rest, year, month))
  {
    var t := "{" + f + "}" + rest;
    assert t[0] == '{';
    assert |f| > 0 ==> t[1] == f[0];
    assert t[|f| + 1] == '}';
    assert forall j :: 1 <= j <= |f| ==> t[j] == f[j - 1];
    assert CharIndex(t, '}') == |f| + 1;
    assert t[1..|f| + 1] == f;
    assert t[|f| + 2..] == rest;
    assert NextPiece(t, year, month) == Piece(Field(f, year, month), |f| + 2);
  }

  /** `{year}` and `{month}` give the plain decimal number. */
  lemma PlainFields(year: nat, month: nat)
    ensures Field("year", year, month) == Ok(NatToString(year))
    ensures Field("month", year, month) == Ok(NatToString(month))
  {
    NameEndAfter("year", []);
    NameEndAfter("month", []);
    assert "year" + [] == "year" && "month" + [] == "month";
    assert !IsAsciiDigit("year"[0]) && !IsAsciiDigit("month"[0]);
  }

  /** The two-digit, zero-padded month of `{month:02d}`. */
  function TwoDigitMonth(month: nat): (r: string)
    requires 1 <= month <= 12
    ensures |r| == 2 && AllDigits(r) && DigitsValue(r) == month
  {
    var r := if month < 10 then ['0', DigitChar(month)] else ['1', DigitChar(month - 10)];
    var head := r[..|r| - 1];
    assert head == [r[0]] && head[..|head| - 1] == [];
    assert DigitsValue(head) == r[0] as int - '0' as int;
    r
  }

  /** The spec "02d": zero padding to width 2. */
  lemma PaddedSpec(value: nat)
    ensures FormatInt(value, "02d") == Ok(Pad(NatToString(value), 2, '0'))
  {
    var rest := "02d"[1..];
    assert rest == "2d";
    assert rest[1..] == "d";
    assert CharCount(rest) == 1;
    assert rest[..1] == "2" && rest[1..] == "d";
    assert "2"[..0] == [];
    assert DigitsValue("2") == 2;
  }

  /** `{month:02d}` hands the month to the spec "02d". */
  lemma PaddedMonthSpec(year: nat, month: nat)
    ensures Field("month:02d", year, month) == FormatInt(month, "02d")
  {
    assert "month:02d" == "month" + ":" + "02d";
    FieldWithSpec("month", "02d", year, month);
  }

  /** `{name:spec}` formats the named value with the spec. */
  lemma FieldWithSpec(name: string, spec: string, year: nat, month: nat)
    requires name == "year" || name == "month"
    ensures Field(name + ":" + spec, year, month) == FormatInt(if name == "year" then year else month, spec)
  {
    var text := name + ":" + spec;
    assert text == name + (":" + spec);
    NameEndAfter(name, ":" + spec);
    assert text[..|name|] == name && text[|name|] == ':' && text[|name| + 1..] == spec;
    assert !IsAsciiDigit(name[0]);
  }

  /** A month zero-padded to width 2 is its two-digit form. */
  lemma PaddedMonth(month: nat)
    requires 1 <= month <= 12
    ensures Pad(NatToString(month), 2, '0') == TwoDigitMonth(month)
  {
    var s := NatToString(month);
    if month < 10 {
      assert s == [DigitChar(month)];
      assert Repeat('0', 1) == ['0'];
    } else {
      assert NatToString(month / 10) == [DigitChar(1)];
      assert s == [DigitChar(1), DigitChar(month - 10)];
    }
  }

  /** `{month:02d}` gives the month as two digits. */
  lemma PaddedMonthField(year: nat, month: nat)
    requires 1 <= month <= 12
    ensures Field("month:02d", year, month) == Ok(TwoDigitMonth(month))
  {
    PaddedMonthSpec(year, month);
    PaddedSpec(month);
    PaddedMonth(month);
  }

  /** A non-empty template never formats to the empty string. */
  lemma FormatNonEmpty(t: string, year: nat, month: nat)
    ensures t != [] && Format(t, year, month).Ok? ==> Format(t, year, month).value != []
  {
  }

  /**
   * `resolve_schedule_url`: a URL without '{' is returned as it is; a
   * templated one is formatted with the target's year and month.
   */
  function ResolveScheduleUrl(template: string, target: DateTime): (r: Result<string>)
    requires ValidDateTime(target)
    ensures !IsTemplated(template) ==> r == Ok(template)
    ensures IsTemplated(template) ==> r == Format(template, target.year, target.month)
    ensures template != [] && r.Ok? ==> r.value != []
  {
    if !IsTemplated(template) then Ok(template)
    else
      FormatNonEmpty(template, target.year, target.month);
      Format(template, target.year, target.month)
  }

  // ---------------------------------------------------------------------
  // Periods (app/pipeline.py:112-125)
  // ---------------------------------------------------------------------

  const DefaultTemplateMonths := 3

  /** The number of periods: the supplied count, else 3 for a templated URL and 1 otherwise. */
  function PeriodCount(templated: bool, months: Option<int>): int
  {
    if months.Some? then months.value else if templated then DefaultTemplateMonths else 1
  }

  /** `f"{target.year}-{target.month:02d}"`: the label of a period, and its cache suffix. */
  function MonthLabel(target: DateTime): string
    requires ValidDateTime(target)
  {
    NatToString(target.year) + "-" + TwoDigitMonth(target.month)
  }

  function Pow10(k: nat): (p: nat)
    ensures p >= 1
  {
    if k == 0 then 1 else 10 * Pow10(k - 1)
  }

  /** A decimal numeral of a number below 10^k has at most k digits. */
  lemma {:induction false} NatToStringShort(n: nat, k: nat)
    requires 1 <= k && n < Pow10(k)
    ensures |NatToString(n)| <= k
  {
    if n >= 10 {
      assert k >= 2;
      assert n / 10 < Pow10(k - 1);
      NatToStringShort(n / 10, k - 1);
    }
  }

  /** A period label survives the cache-suffix sanitising unchanged. */
  lemma MonthLabelIsSafe(target: DateTime)
    requires ValidDateTime(target)
    ensures Scraper.SafeCacheSuffix(MonthLabel(target)) == MonthLabel(target)
  {
    var name := MonthLabel(target);
    var y := NatToString(target.year);
    assert Pow10(4) == 10000;
    NatToStringShort(target.year, 4);
    forall i | 0 <= i < |name|
      ensures Scraper.IsSafe(name[i])
    {
      if i < |y| {
        assert name[i] == y[i];
      } else if i > |y| {
        assert name[i] == TwoDigitMonth(target.month)[i - |y| - 1];
      }
    }
    Scraper.SafeCacheSuffixFixedPoint(name);
  }
}

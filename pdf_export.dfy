/** What the order and reservation PDF exports share: JavaScript numbers
    with their NaN, the currency and date formatting helpers, the filename
    sanitising, and the rows of the four-column item table and the totals
    block. The layout engine itself is not part of this model. */
module PdfExport {
  import opened Common
  import opened Text

  /** A JavaScript number after `Number(...)`: a finite value or NaN. */
  datatype Num = Finite(value: real) | NaN

  /** `a - b`: NaN is contagious. */
  function Sub(a: Num, b: Num): (r: Num)
    ensures r.Finite? <==> a.Finite? && b.Finite?
    ensures r.Finite? ==> r.value == a.value - b.value
  {
    if a.Finite? && b.Finite? then Finite(a.value - b.value) else NaN
  }

  /** `a * b`: NaN is contagious. */
  function Mul(a: Num, b: Num): (r: Num)
    ensures r.Finite? <==> a.Finite? && b.Finite?
    ensures r.Finite? ==> r.value == a.value * b.value
  {
    if a.Finite? && b.Finite? then Finite(a.value * b.value) else NaN
  }

  /** `Math.max(0, a)`: NaN stays NaN, anything else is at least 0. */
  function MaxZero(a: Num): (r: Num)
    ensures a.NaN? <==> r.NaN?
    ensures r.Finite? ==> r.value >= 0.0 && r.value >= a.value
    ensures r.Finite? ==> r.value == 0.0 || r.value == a.value
  {
    match a
    case NaN => NaN
    case Finite(v) => Finite(if v > 0.0 then v else 0.0)
  }
  /** `Math.max(0, a - b)`: NaN when either figure is NaN, otherwise the
      amount by which b falls short of a, or 0. */
  lemma Shortfall(a: Num, b: Num)
    ensures var d := MaxZero(Sub(a, b));
      && (d.Finite? <==> a.Finite? && b.Finite?)
      && (d.Finite? ==> d.value >= 0.0)
      && (IsPositive(d) <==> a.Finite? && b.Finite? && b.value < a.value)
      && (IsPositive(d) ==> d.value == a.value - b.value)
  {
  }


  /** `isFinite(a) ? a : 0`. */
  function OrZero(a: Num): real {
    if a.Finite? then a.value else 0.0
  }

  /** `a > 0`: false for NaN. */
  predicate IsPositive(a: Num) {
    a.Finite? && a.value > 0.0
  }

  /** A number is truthy unless it is 0 or NaN. */
  predicate TruthyNum(a: Option<Num>) {
    a.Some? && a.value.Finite? && a.value.value != 0.0
  }

  /** The two locale-dependent renderings the exports use:
      `Intl.NumberFormat('es-GT', GTQ)` for finite amounts and `String(n)`
      for a finite number. */
  datatype Formatter = Formatter(currency: real -> string, number: real -> string)

  const NO_VALUE := "—"

  /** `formatGTQ`: a placeholder for NaN, the currency rendering otherwise. */
  function FormatGTQ(v: Num, fmt: Formatter): (r: string)
    ensures v.NaN? ==> r == NO_VALUE
    ensures v.Finite? ==> r == fmt.currency(v.value)
  {
    if v.NaN? then NO_VALUE else fmt.currency(v.value)
  }

  /** `String(n)` of a number. */
  function NumberText(v: Num, fmt: Formatter): string {
    if v.NaN? then "NaN" else fmt.number(v.value)
  }

  /** A calendar day in local time: `getDate()`, `getMonth()` (from 0) and
      `getFullYear()`. */
  datatype CalendarDate = CalendarDate(day: nat, month0: nat, year: int)

  /** A valid `Date`: its time value in milliseconds and its local day. */
  datatype Instant = Instant(epochMs: int, local: CalendarDate)

  /** The argument of the date helpers: absent, a string (with what
      `new Date(text)` makes of it; `None` is an invalid date), or a `Date`
      object (`None` is an invalid one). */
  datatype DateArg = NoDate | DateText(text: string, parsed: Option<Instant>) | DateValue(parsed: Option<Instant>)

  /** `!d` */
  predicate FalsyDate(d: DateArg) {
    d.NoDate? || (d.DateText? && d.text == "")
  }

  /** The date the argument denotes, if it is a valid one. */
  function ParsedDate(d: DateArg): Option<Instant> {
    match d
    case NoDate => None
    case DateText(_, p) => p
    case DateValue(p) => p
  }

  /** `String(d)` of an invalid date argument. */
  function InvalidDateText(d: DateArg): string {
    match d
    case DateText(t, _) => t
    case _ => "Invalid Date"
  }

  /** dd/mm/yyyy with day and month zero-padded to two digits; the month
      is counted from 1. */
  function DayMonthYear(c: CalendarDate): string {
    PadTwo(c.day) + "/" + PadTwo(c.month0 + 1) + "/" + IntToString(c.year)
  }

  /** `formatDisplayDate`. */
  function FormatDisplayDate(d: DateArg): (r: string)
    ensures FalsyDate(d) ==> r == NO_VALUE
    ensures !FalsyDate(d) && ParsedDate(d).None? ==> r == InvalidDateText(d)
    ensures !FalsyDate(d) && ParsedDate(d).Some? ==> r == DayMonthYear(ParsedDate(d).value.local)
  {
    if FalsyDate(d) then NO_VALUE
    else match ParsedDate(d)
      case None => InvalidDateText(d)
      case Some(i) => DayMonthYear(i.local)
  }

  /** The fields of a dd/mm/yyyy string, read back. */
  function ReadDayMonthYear(r: string): (int, int, int)
    requires |r| >= 7
    requires forall k :: 0 <= k < |r| && k != 2 && k != 5 ==> IsDigit(r[k])
  {
    (ParseNat(r[0..2]), ParseNat(r[3..5]), ParseNat(r[6..]))
  }

  /** For a real calendar day of a year from 0 on, the rendering has the
      dd/mm/yyyy shape and gives back the day, the month counted from 1
      and the year. */
  lemma DayMonthYearRoundTrip(c: CalendarDate)
    requires 1 <= c.day <= 31 && c.month0 <= 11 && c.year >= 0
    ensures var r := DayMonthYear(c);
      && |r| >= 7 && r[2] == '/' && r[5] == '/'
      && (forall k :: 0 <= k < |r| && k != 2 && k != 5 ==> IsDigit(r[k]))
      && ReadDayMonthYear(r) == (c.day, c.month0 + 1, c.year)
  {
    var dd, mm, yy := PadTwo(c.day), PadTwo(c.month0 + 1), NatToString(c.year);
    var r := dd + "/" + mm + "/" + yy;
    assert DayMonthYear(c) == r;
    assert r[0..2] == dd;
    assert r[3..5] == mm;
    assert r[6..] == yy;
    ParseNatToString(c.year);
  }

  // ---- filename sanitising: `.replace(/[^\p{L}\p{N}_-]+/gu, '_')` ----

  /** A character the pattern leaves alone: a letter or a number (the
      Unicode classification is a parameter), `_` or `-`. */
  predicate SafeChar(c: char, isLetterOrNumber: char -> bool) {
    isLetterOrNumber(c) || c == '_' || c == '-'
  }

  predicate AllSafe(s: string, isLetterOrNumber: char -> bool) {
    forall k :: 0 <= k < |s| ==> SafeChar(s[k], isLetterOrNumber)
  }

  predicate NoneSafe(s: string, isLetterOrNumber: char -> bool) {
    forall k :: 0 <= k < |s| ==> !SafeChar(s[k], isLetterOrNumber)
  }

  /** Drops the run of unsafe characters at the front. */
  function SkipUnsafe(s: string, isLetterOrNumber: char -> bool): (r: string)
    ensures |r| <= |s| && r == s[|s| - |r|..]
    ensures r == [] || SafeChar(r[0], isLetterOrNumber)
    ensures NoneSafe(s[..|s| - |r|], isLetterOrNumber)
  {
    if s == [] then []
    else if SafeChar(s[0], isLetterOrNumber) then s
    else
      var r := SkipUnsafe(s[1..], isLetterOrNumber);
      assert s[..|s| - |r|] == [s[0]] + s[1..][..|s| - 1 - |r|];
      r
  }

  /** Each maximal run of unsafe characters becomes one `_`. */
  function Sanitize(s: string, isLetterOrNumber: char -> bool): (r: string)
    ensures AllSafe(r, isLetterOrNumber)
    ensures |r| <= |s|
    ensures r == [] <==> s == []
    decreases |s|
  {
    if s == [] then []
    else if SafeChar(s[0], isLetterOrNumber) then [s[0]] + Sanitize(s[1..], isLetterOrNumber)
    else "_" + Sanitize(SkipUnsafe(s[1..], isLetterOrNumber), isLetterOrNumber)
  }

  /** A string made only of safe characters is left as it is. */
  lemma {:induction false} SanitizeKeepsSafe(s: string, isLetterOrNumber: char -> bool)
    requires AllSafe(s, isLetterOrNumber)
    ensures Sanitize(s, isLetterOrNumber) == s
    decreases |s|
  {
    if s != [] {
      SanitizeKeepsSafe(s[1..], isLetterOrNumber);
    }
  }

  /** Sanitising twice is sanitising once. */
  lemma SanitizeIdempotent(s: string, isLetterOrNumber: char -> bool)
    ensures Sanitize(Sanitize(s, isLetterOrNumber), isLetterOrNumber) == Sanitize(s, isLetterOrNumber)
  {
    SanitizeKeepsSafe(Sanitize(s, isLetterOrNumber), isLetterOrNumber);
  }

  /** A safe character in front is copied through. */
  lemma SanitizeCons(c: char, t: string, isLetterOrNumber: char -> bool)
    requires SafeChar(c, isLetterOrNumber)
    ensures Sanitize([c] + t, isLetterOrNumber) == [c] + Sanitize(t, isLetterOrNumber)
  {
    assert ([c] + t)[1..] == t;
  }

  /** A safe prefix is copied through. */
  lemma {:induction false} SanitizeSafePrefix(x: string, y: string, isLetterOrNumber: char -> bool)
    requires AllSafe(x, isLetterOrNumber)
    ensures Sanitize(x + y, isLetterOrNumber) == x + Sanitize(y, isLetterOrNumber)
    decreases |x|
  {
    if x != [] {
      assert x + y == [x[0]] + (x[1..] + y);
      SanitizeCons(x[0], x[1..] + y, isLetterOrNumber);
      SanitizeSafePrefix(x[1..], y, isLetterOrNumber);
      assert x == [x[0]] + x[1..];
    } else {
      assert x + y == y;
    }
  }

  /** A whole run of unsafe characters, up to the next safe one or the end,
      turns into a single `_`. */
  lemma SanitizeUnsafeRun(u: string, y: string, isLetterOrNumber: char -> bool)
    requires u != [] && NoneSafe(u, isLetterOrNumber)
    requires y == [] || SafeChar(y[0], isLetterOrNumber)
    ensures Sanitize(u + y, isLetterOrNumber) == "_" + Sanitize(y, isLetterOrNumber)
  {
    assert (u + y)[1..] == u[1..] + y;
    SkipRun(u[1..], y, isLetterOrNumber);
  }

  lemma {:induction false} SkipRun(u: string, y: string, isLetterOrNumber: char -> bool)
    requires NoneSafe(u, isLetterOrNumber)
    requires y == [] || SafeChar(y[0], isLetterOrNumber)
    ensures SkipUnsafe(u + y, isLetterOrNumber) == y
    decreases |u|
  {
    if u != [] {
      assert (u + y)[1..] == u[1..] + y;
      SkipRun(u[1..], y, isLetterOrNumber);
    } else {
      assert u + y == y;
    }
  }

  /** `String(id || fallback)` sanitised. */
  function SafeId(id: Option<string>, fallback: string, isLetterOrNumber: char -> bool): (r: string)
    ensures AllSafe(r, isLetterOrNumber)
    ensures Truthy(id) ==> r == Sanitize(id.value, isLetterOrNumber)
    ensures !Truthy(id) ==> r == Sanitize(fallback, isLetterOrNumber)
  {
    Sanitize(Or(id, fallback), isLetterOrNumber)
  }

  // ---- the item table and the totals block ----

  /** One row of the four-column table: the bold header, an item line
      (description, quantity, unit price, amount) or the discount line. */
  datatype Row =
    | HeaderRow
    | LineRow(description: string, quantity: Num, unitPrice: Num, amount: Num)
    | DiscountRow(caption: string, amount: Num)

  /** The texts of a row's four cells. */
  function RowCells(row: Row, fmt: Formatter): (cells: seq<string>)
    ensures |cells| == 4
  {
    match row
    case HeaderRow => ["Descripción", "Cantidad", "P. Unitario", "Importe"]
    case LineRow(d, q, p, a) => [d, NumberText(q, fmt), FormatGTQ(p, fmt), FormatGTQ(a, fmt)]
    case DiscountRow(l, a) => [l, "1", "- " + FormatGTQ(a, fmt), "- " + FormatGTQ(a, fmt)]
  }

  /** `Descuento ${name ? `- ${name}` : ''}`. */
  function DiscountLabel(promotionName: Option<string>): (r: string)
    ensures StartsWith(r, "Descuento ")
    ensures Truthy(promotionName) ==> r == "Descuento - " + promotionName.value
    ensures !Truthy(promotionName) ==> r == "Descuento "
  {
    if Truthy(promotionName) then "Descuento " + "- " + promotionName.value else "Descuento "
  }

  /** The applied promotion as the exports read it. */
  datatype Promotion = Promotion(name: Option<string>, percentOff: Option<Num>, amountOff: Option<Num>)

  function PromotionName(p: Option<Promotion>): Option<string> {
    if p.Some? then p.value.name else None
  }

  /** A line of the totals block: Subtotal, Descuento or Total. */
  datatype TotalsLine = SubtotalLine(amount: Num) | DiscountLine(amount: Num) | TotalLine(amount: Num)

  /** Subtotal, then a discount line exactly when the discount is positive,
      then Total. */
  function TotalsBlock(subtotal: Num, discount: Num, total: Num): (b: seq<TotalsLine>)
    ensures |b| == (if IsPositive(discount) then 3 else 2)
    ensures b[0] == SubtotalLine(subtotal) && b[|b| - 1] == TotalLine(total)
    ensures IsPositive(discount) ==> b[1] == DiscountLine(discount)
  {
    [SubtotalLine(subtotal)]
      + (if IsPositive(discount) then [DiscountLine(discount)] else [])
      + [TotalLine(total)]
  }

  /** The texts of a totals line: its label and its amount. */
  function TotalsCells(line: TotalsLine, fmt: Formatter): (cells: seq<string>)
    ensures |cells| == 2
  {
    match line
    case SubtotalLine(a) => ["Subtotal", FormatGTQ(a, fmt)]
    case DiscountLine(a) => ["Descuento", "- " + FormatGTQ(a, fmt)]
    case TotalLine(a) => ["Total", FormatGTQ(a, fmt)]
  }

  /** The error every export raises outside a browser. */
  const BROWSER_ONLY := "La exportación a PDF solo está disponible en el navegador"
}

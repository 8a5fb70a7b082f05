/** The reservation exports of app/lib/api/reservations/reservations.ts:
    `diffNights`, the invoice (`exportReservationInvoicePDF`: a lodging row,
    an optional discount row and a totals block) and the proof of
    reservation (`exportReservationProofPDF`: seven label–value rows). The
    documents are modelled by their contents; pdfmake's rendering and the
    download are not part of this model. */
module Reservations {
  import opened Common
  import opened Text
  import opened PdfExport

  /** Milliseconds in a day, `1000 * 60 * 60 * 24`. */
  const DAY_MS: int := 86400000

  datatype Hotel = Hotel(name: Option<string>, address: Option<string>)

  /** The room fields the exports read; `number` is read through `any`. */
  datatype Room = Room(number: Option<string>, name: Option<string>, pricePerNight: Option<Num>)

  /** `Partial<Reservation> & { id?: string }`. */
  datatype Reservation = Reservation(
    id: Option<string>,
    clientCui: Option<string>,
    hotelId: Option<string>,
    roomId: Option<string>,
    startDate: DateArg,
    endDate: DateArg,
    totalCost: Option<Num>,
    subtotal: Option<Num>,
    promotionApplied: Option<Promotion>,
    hotel: Option<Hotel>,
    room: Option<Room>)

  /** The `opts` argument: a hotel and a room that take precedence. */
  datatype ExportOptions = ExportOptions(hotel: Option<Hotel>, room: Option<Room>)

  // ---- diffNights ----

  /** `Math.max(0, Math.ceil(ms / DAY_MS))` for a finite difference: the
      least number of whole days that covers `ms`. */
  function NightCount(ms: int): (n: nat)
    ensures ms <= 0 <==> n == 0
    decreases ms
  {
    if ms <= 0 then 0 else 1 + NightCount(ms - DAY_MS)
  }

  /** A positive gap of `ms` milliseconds takes `NightCount(ms)` whole days
      and not one fewer. */
  lemma {:induction false} NightCountBounds(ms: int)
    requires ms > 0
    ensures (NightCount(ms) - 1) * DAY_MS < ms <= NightCount(ms) * DAY_MS
    decreases ms
  {
    var n := NightCount(ms);
    if ms > DAY_MS {
      NightCountBounds(ms - DAY_MS);
      var m := NightCount(ms - DAY_MS);
      assert n == m + 1;
      assert (m - 1) * DAY_MS == m * DAY_MS - DAY_MS;
      assert n * DAY_MS == m * DAY_MS + DAY_MS;
    } else {
      assert n == 1;
    }
  }

  /** `diffNights(start, end)`: 0 when either date is falsy, NaN (`None`)
      when either is an invalid date, otherwise the night count of the
      difference of their time values. */
  function DiffNights(start: DateArg, end: DateArg): (r: Option<nat>)
    ensures FalsyDate(start) || FalsyDate(end) ==> r == Some(0)
    ensures !FalsyDate(start) && !FalsyDate(end) ==>
      (r.None? <==> ParsedDate(start).None? || ParsedDate(end).None?)
    ensures !FalsyDate(start) && !FalsyDate(end) && r.Some? ==>
      r.value == NightCount(ParsedDate(end).value.epochMs - ParsedDate(start).value.epochMs)
  {
    if FalsyDate(start) || FalsyDate(end) then Some(0)
    else match (ParsedDate(start), ParsedDate(end))
      case (Some(s), Some(e)) => Some(NightCount(e.epochMs - s.epochMs))
      case _ => None
  }

  /** The night count as the number the exports compute with. */
  function NightsNum(nights: Option<nat>): Num {
    if nights.Some? then Finite(nights.value as real) else NaN
  }

  /** `String(nights)`. */
  function NightsText(nights: Option<nat>): string {
    if nights.Some? then NatToString(nights.value) else "NaN"
  }

  /** `noche${nights === 1 ? '' : 's'}`. */
  function NightsWord(nights: Option<nat>): (w: string)
    ensures w == "noche" <==> nights == Some(1)
    ensures w != "noche" ==> w == "noches"
  {
    if nights == Some(1) then "noche" else "noches"
  }

  // ---- what both exports read ----

  /** `opts?.hotel || reservation.hotel || null`. */
  function ChosenHotel(res: Reservation, opts: ExportOptions): Option<Hotel> {
    if opts.hotel.Some? then opts.hotel else res.hotel
  }

  /** `opts?.room || reservation.room || null`. */
  function ChosenRoom(res: Reservation, opts: ExportOptions): Option<Room> {
    if opts.room.Some? then opts.room else res.room
  }

  /** `room?.number || room?.name || reservation.roomId || fallback`. */
  function RoomName(room: Option<Room>, roomId: Option<string>, fallback: string): (r: string)
    ensures room.Some? && Truthy(room.value.number) ==> r == room.value.number.value
    ensures room.Some? && !Truthy(room.value.number) && Truthy(room.value.name) ==> r == room.value.name.value
    ensures (room.None? || (!Truthy(room.value.number) && !Truthy(room.value.name))) ==> r == Or(roomId, fallback)
  {
    if room.Some? && Truthy(room.value.number) then room.value.number.value
    else if room.Some? && Truthy(room.value.name) then room.value.name.value
    else Or(roomId, fallback)
  }

  /** `room?.pricePerNight` (absent when there is no room). */
  function PricePerNight(room: Option<Room>): Option<Num> {
    if room.Some? then room.value.pricePerNight else None
  }

  // ---- the invoice ----

  /** The figures of the invoice. */
  datatype InvoiceFigures = InvoiceFigures(
    nights: Option<nat>,
    unitPrice: Num,
    lineTotal: Num,
    discount: Num,
    subtotal: Num,
    total: Num)

  /** `diffNights(reservation.startDate, reservation.endDate)`. */
  function StayNights(res: Reservation): Option<nat> {
    DiffNights(res.startDate, res.endDate)
  }

  /** `unitPrice = Number(room?.pricePerNight ?? 0)`,
      `lineTotal = nights * (isFinite(unitPrice) ? unitPrice : 0)`,
      `discount = Math.max(0, (subtotal ?? 0) - (totalCost ?? 0))`,
      `subtotal ?? lineTotal` and `totalCost ?? Math.max(0, subtotal - discount)`,
      for a stay of `nights` (the invoice passes `StayNights`). */
  function Figures(res: Reservation, room: Option<Room>, nights: Option<nat>): (f: InvoiceFigures)
    ensures f.nights == nights
    ensures f.unitPrice == PricePerNight(room).GetOr(Finite(0.0))
    ensures f.subtotal == res.subtotal.GetOr(f.lineTotal)
    ensures f.total == res.totalCost.GetOr(MaxZero(Sub(f.subtotal, f.discount)))
  {
    var unitPrice := PricePerNight(room).GetOr(Finite(0.0));
    var lineTotal := Mul(NightsNum(nights), Finite(OrZero(unitPrice)));
    var discount := MaxZero(Sub(res.subtotal.GetOr(Finite(0.0)), res.totalCost.GetOr(Finite(0.0))));
    var subtotal := res.subtotal.GetOr(lineTotal);
    var total := res.totalCost.GetOr(MaxZero(Sub(subtotal, discount)));
    InvoiceFigures(nights, unitPrice, lineTotal, discount, subtotal, total)
  }

  /** The lodging row: `Alojamiento - ${roomName}` over the nights, the
      unit price and the line total. */
  function LodgingRow(roomName: string, f: InvoiceFigures): Row {
    LineRow("Alojamiento - " + roomName, NightsNum(f.nights), f.unitPrice, f.lineTotal)
  }

  /** Pushes the header, the lodging row and, when the discount is
      positive, the discount row. */
  method BuildReservationTable(roomName: string, f: InvoiceFigures, promotionName: Option<string>) returns (table: seq<Row>)
    ensures |table| == (if IsPositive(f.discount) then 3 else 2)
    ensures table[0] == HeaderRow && table[1] == LodgingRow(roomName, f)
    ensures IsPositive(f.discount) ==> table[2] == DiscountRow(DiscountLabel(promotionName), f.discount)
  {
    table := [];
    table := table + [HeaderRow];
    table := table + [LineRow("Alojamiento - " + roomName, NightsNum(f.nights), f.unitPrice, f.lineTotal)];
    if IsPositive(f.discount) {
      table := table + [DiscountRow(DiscountLabel(promotionName), f.discount)];
    }
  }

  /** The invoice as the document lays it out. */
  datatype ReservationInvoice = ReservationInvoice(
    title: string,
    vendorName: string,
    vendorAddress: string,
    dateLine: string,
    reservationLine: string,
    clientLine: string,
    table: seq<Row>,
    totals: seq<TotalsLine>,
    fileName: string)

  function HotelName(hotel: Option<Hotel>, fallback: string): string {
    if hotel.Some? then Or(hotel.value.name, fallback) else fallback
  }

  function HotelAddress(hotel: Option<Hotel>): string {
    if hotel.Some? then Or(hotel.value.address, "") else ""
  }

  /** `factura_reservacion_` or `comprobante_reservacion_`, the sanitised
      id (or "reserva"), `.pdf`. */
  function ReservationFileName(prefix: string, res: Reservation, isLetterOrNumber: char -> bool): string {
    prefix + SafeId(res.id, "reserva", isLetterOrNumber) + ".pdf"
  }

  /** The rows of the invoice's table, as `BuildReservationTable` pushes them. */
  function InvoiceTable(res: Reservation, opts: ExportOptions): seq<Row> {
    var f := Figures(res, ChosenRoom(res, opts), StayNights(res));
    var roomName := RoomName(ChosenRoom(res, opts), res.roomId, "Habitación");
    [HeaderRow, LodgingRow(roomName, f)]
      + (if IsPositive(f.discount) then [DiscountRow(DiscountLabel(PromotionName(res.promotionApplied)), f.discount)] else [])
  }

  /** The invoice's totals block. */
  function InvoiceTotals(res: Reservation, opts: ExportOptions): seq<TotalsLine> {
    var f := Figures(res, ChosenRoom(res, opts), StayNights(res));
    TotalsBlock(f.subtotal, f.discount, f.total)
  }

  /** The invoice exported at the instant `now`. */
  function ReservationInvoiceOf(res: Reservation, opts: ExportOptions, now: Instant, isLetterOrNumber: char -> bool): ReservationInvoice {
    var hotel := ChosenHotel(res, opts);
    ReservationInvoice(
      "Factura de Pago",
      HotelName(hotel, "Hotel"),
      HotelAddress(hotel),
      "Fecha: " + FormatDisplayDate(DateValue(Some(now))),
      "Reserva: " + Or(res.id, NO_VALUE),
      "Cliente: " + Or(res.clientCui, NO_VALUE),
      InvoiceTable(res, opts),
      InvoiceTotals(res, opts),
      ReservationFileName("factura_reservacion_", res, isLetterOrNumber))
  }

  /** `exportReservationInvoicePDF`: fails outside a browser, otherwise
      computes the figures, builds the table and assembles the document. */
  method ExportReservationInvoice(res: Reservation, opts: ExportOptions, isBrowser: bool, now: Instant, isLetterOrNumber: char -> bool)
    returns (r: Result<ReservationInvoice, string>)
    ensures !isBrowser ==> r == Failure(BROWSER_ONLY)
    ensures isBrowser ==> r == Success(ReservationInvoiceOf(res, opts, now, isLetterOrNumber))
  {
    if !isBrowser {
      return Failure(BROWSER_ONLY);
    }
    var hotel := ChosenHotel(res, opts);
    var room := ChosenRoom(res, opts);
    var f := Figures(res, room, StayNights(res));
    var roomName := RoomName(room, res.roomId, "Habitación");
    var table := BuildReservationTable(roomName, f, PromotionName(res.promotionApplied));
    assert table == InvoiceTable(res, opts);
    assert TotalsBlock(f.subtotal, f.discount, f.total) == InvoiceTotals(res, opts);
    var invoice := ReservationInvoice(
      "Factura de Pago",
      HotelName(hotel, "Hotel"),
      HotelAddress(hotel),
      "Fecha: " + FormatDisplayDate(DateValue(Some(now))),
      "Reserva: " + Or(res.id, NO_VALUE),
      "Cliente: " + Or(res.clientCui, NO_VALUE),
      table,
      TotalsBlock(f.subtotal, f.discount, f.total),
      ReservationFileName("factura_reservacion_", res, isLetterOrNumber));
    return Success(invoice);
  }

  // ---- the proof of reservation ----

  /** The proof as the document lays it out: label–value rows. */
  datatype ReservationProof = ReservationProof(
    title: string,
    reservationLine: string,
    clientLine: string,
    rows: seq<(string, string)>,
    issuedLine: string,
    fileName: string)

  /** `${name || ''} ${percentOff ? `· ${percentOff}%` : ''} ${amountOff ? `· - ${formatGTQ(amountOff)}` : ''}`,
      or "—" without a promotion. */
  function PromotionText(p: Option<Promotion>, fmt: Formatter): (t: string)
    ensures p.None? ==> t == NO_VALUE
  {
    match p
    case None => NO_VALUE
    case Some(promo) =>
      Or(promo.name, "") + " "
        + (if TruthyNum(promo.percentOff) then "· " + NumberText(promo.percentOff.value, fmt) + "%" else "") + " "
        + (if TruthyNum(promo.amountOff) then "· - " + FormatGTQ(promo.amountOff.value, fmt) else "")
  }

  /** `formatGTQ(x)` of an optional field: an absent one is NaN. */
  function FormatField(v: Option<Num>, fmt: Formatter): (s: string)
    ensures v.None? ==> s == NO_VALUE
  {
    FormatGTQ(v.GetOr(NaN), fmt)
  }

  /** The Fechas cell, from the two rendered dates and the night count.
      The singular "noche" closes the cell exactly for a one-night stay. */
  function DatesCell(startText: string, endText: string, nights: Option<nat>): (t: string)
    ensures |t| >= 7 && (t[|t| - 7..] == " noche)" <==> nights == Some(1))
  {
    var head := startText + " – " + endText + " (" + NightsText(nights);
    var tail := " " + NightsWord(nights) + ")";
    assert (head + tail)[|head + tail| - 7..] == tail[|tail| - 7..];
    assert nights != Some(1) ==> tail[|tail| - 7..] == "noches)" && tail[|tail| - 7] != ' ';
    head + tail
  }

  /** The Fechas cell of a reservation. */
  function DatesText(res: Reservation): (t: string)
    ensures |t| >= 7 && (t[|t| - 7..] == " noche)" <==> DiffNights(res.startDate, res.endDate) == Some(1))
  {
    DatesCell(FormatDisplayDate(res.startDate), FormatDisplayDate(res.endDate), DiffNights(res.startDate, res.endDate))
  }

  /** The seven rows of the proof, in order. */
  function ProofRows(res: Reservation, opts: ExportOptions, fmt: Formatter): (rows: seq<(string, string)>)
    ensures |rows| == 7
    ensures rows[0].0 == "Hotel" && rows[1].0 == "Habitación" && rows[2].0 == "Fechas"
      && rows[3].0 == "Precio/noche" && rows[4].0 == "Subtotal" && rows[5].0 == "Promoción"
      && rows[6].0 == "Total"
  {
    var hotel := ChosenHotel(res, opts);
    var room := ChosenRoom(res, opts);
    [ ("Hotel", HotelName(hotel, Or(res.hotelId, NO_VALUE)) + "\n" + HotelAddress(hotel)),
      ("Habitación", RoomName(room, res.roomId, NO_VALUE)),
      ("Fechas", DatesText(res)),
      ("Precio/noche", FormatField(PricePerNight(room), fmt)),
      ("Subtotal", FormatField(res.subtotal, fmt)),
      ("Promoción", PromotionText(res.promotionApplied, fmt)),
      ("Total", FormatField(res.totalCost, fmt)) ]
  }

  /** `exportReservationProofPDF`: fails outside a browser, otherwise the
      proof document issued at `now`. */
  function ExportReservationProof(res: Reservation, opts: ExportOptions, isBrowser: bool, now: Instant, fmt: Formatter, isLetterOrNumber: char -> bool)
    : (r: Result<ReservationProof, string>)
    ensures !isBrowser <==> r == Failure(BROWSER_ONLY)
    ensures r.Success? ==>
      && r.value.title == "Comprobante de Reservación"
      && r.value.reservationLine == "Reserva: " + Or(res.id, NO_VALUE)
      && r.value.clientLine == "Cliente: " + Or(res.clientCui, NO_VALUE)
      && r.value.rows == ProofRows(res, opts, fmt)
      && r.value.issuedLine == "Emitido: " + DayMonthYear(now.local)
      && r.value.fileName == ReservationFileName("comprobante_reservacion_", res, isLetterOrNumber)
  {
    if !isBrowser then Failure(BROWSER_ONLY)
    else Success(ReservationProof(
      "Comprobante de Reservación",
      "Reserva: " + Or(res.id, NO_VALUE),
      "Cliente: " + Or(res.clientCui, NO_VALUE),
      ProofRows(res, opts, fmt),
      "Emitido: " + FormatDisplayDate(DateValue(Some(now))),
      ReservationFileName("comprobante_reservacion_", res, isLetterOrNumber)))
  }

  // ---- properties ----

  /** An exact number of days gives that number of nights. */
  lemma NightCountExact(n: nat)
    ensures NightCount(n * DAY_MS) == n
  {
    var m := NightCount(n * DAY_MS);
    if n > 0 {
      NightCountBounds(n * DAY_MS);
      assert (m - 1) * DAY_MS < n * DAY_MS <= m * DAY_MS;
      assert m - 1 < n <= m;
    }
  }

  /** Any positive part of a day counts as a whole night. */
  lemma NightCountRoundsUp(n: nat, part: int)
    requires 0 < part < DAY_MS
    ensures NightCount(n * DAY_MS + part) == n + 1
  {
    var m := NightCount(n * DAY_MS + part);
    NightCountBounds(n * DAY_MS + part);
    assert (m - 1) * DAY_MS < n * DAY_MS + part <= m * DAY_MS;
    assert m - 1 <= n < m;
  }

  /** The night count never decreases as the stay gets longer. */
  lemma NightCountMonotone(a: int, b: int)
    requires a <= b
    ensures NightCount(a) <= NightCount(b)
  {
    if a > 0 {
      NightCountBounds(a);
      NightCountBounds(b);
      var m, n := NightCount(a), NightCount(b);
      assert (m - 1) * DAY_MS < n * DAY_MS;
    }
  }

  /** The invoice's discount is never negative, and it is positive exactly
      when the (defaulted) subtotal exceeds the (defaulted) total cost. */
  lemma InvoiceDiscountBounds(res: Reservation, room: Option<Room>, nights: Option<nat>)
    ensures var f := Figures(res, room, nights);
      var s := res.subtotal.GetOr(Finite(0.0));
      var c := res.totalCost.GetOr(Finite(0.0));
      && (f.discount.Finite? ==> f.discount.value >= 0.0)
      && (IsPositive(f.discount) <==> s.Finite? && c.Finite? && c.value < s.value)
      && (IsPositive(f.discount) ==> f.discount.value == s.value - c.value)
  {
    var f := Figures(res, room, nights);
    var s := res.subtotal.GetOr(Finite(0.0));
    var c := res.totalCost.GetOr(Finite(0.0));
    assert f.discount == MaxZero(Sub(s, c));
    Shortfall(s, c);
  }

  /** The line total is nights times the unit price, a missing or
      non-numeric price counting 0; NaN nights make it NaN. */
  lemma LineTotalIsNightsTimesPrice(res: Reservation, room: Option<Room>, nights: Option<nat>)
    ensures var f := Figures(res, room, nights);
      && (f.nights.Some? ==> f.lineTotal == Finite(f.nights.value as real * OrZero(f.unitPrice)))
      && (f.nights.None? ==> f.lineTotal.NaN?)
      && (PricePerNight(room).None? ==> f.unitPrice == Finite(0.0))
  {
  }

  /** With a subtotal but no total cost the whole subtotal counts as the
      discount and the total shown is 0 (or the subtotal is NaN and so are
      the figures derived from it). */
  lemma SubtotalWithoutTotalCost(res: Reservation, room: Option<Room>, nights: Option<nat>)
    requires res.subtotal.Some? && res.subtotal.value.Finite? && res.totalCost.None?
    ensures var f := Figures(res, room, nights);
      var s := res.subtotal.value.value;
      && f.subtotal == Finite(s)
      && f.discount == Finite(if s > 0.0 then s else 0.0)
      && f.total == Finite(0.0)
  {
  }

  /** With both figures on the reservation, they are shown as they are. */
  lemma BothFiguresShownAsGiven(res: Reservation, room: Option<Room>, nights: Option<nat>)
    requires res.subtotal.Some? && res.totalCost.Some?
    ensures var f := Figures(res, room, nights);
      f.subtotal == res.subtotal.value && f.total == res.totalCost.value
  {
  }

  /** With a total cost but no subtotal, the subtotal shown is the line
      total and the total shown is the given total cost. */
  lemma TotalCostWithoutSubtotal(res: Reservation, room: Option<Room>, nights: Option<nat>)
    requires res.subtotal.None? && res.totalCost.Some?
    ensures var f := Figures(res, room, nights);
      f.subtotal == f.lineTotal && f.total == res.totalCost.value
  {
  }

  /** A NaN subtotal without a total cost makes the discount, the subtotal
      and the total shown all NaN. */
  lemma NaNSubtotalWithoutTotalCost(res: Reservation, room: Option<Room>, nights: Option<nat>)
    requires res.subtotal == Some(NaN) && res.totalCost.None?
    ensures var f := Figures(res, room, nights);
      f.discount.NaN? && f.subtotal.NaN? && f.total.NaN?
  {
  }

  /** Without figures on the reservation there is no discount: the subtotal
      is the line total and the total its non-negative part. */
  lemma NoFiguresUseLineTotal(res: Reservation, room: Option<Room>, nights: Option<nat>)
    requires res.subtotal.None? && res.totalCost.None?
    ensures var f := Figures(res, room, nights);
      f.discount == Finite(0.0) && f.subtotal == f.lineTotal && f.total == MaxZero(f.lineTotal)
  {
  }

  /** The invoice's table and totals block agree: two rows and two totals
      lines without a discount, three of each with one, and the same
      discount amount in both. */
  lemma InvoiceShape(res: Reservation, opts: ExportOptions)
    ensures var table, totals := InvoiceTable(res, opts), InvoiceTotals(res, opts);
      && (|table| == 2 || |table| == 3)
      && |table| == |totals|
      && table[0] == HeaderRow && table[1].LineRow?
      && (|table| == 3 ==> table[2].DiscountRow? && table[2].amount == totals[1].amount)
  {
    var f := Figures(res, ChosenRoom(res, opts), StayNights(res));
    var roomName := RoomName(ChosenRoom(res, opts), res.roomId, "Habitación");
    var extra := if IsPositive(f.discount) then [DiscountRow(DiscountLabel(PromotionName(res.promotionApplied)), f.discount)] else [];
    assert InvoiceTable(res, opts) == [HeaderRow, LodgingRow(roomName, f)] + extra;
    assert InvoiceTotals(res, opts) == TotalsBlock(f.subtotal, f.discount, f.total);
  }

  /** Without a room, a room name or a room id the invoice says
      "Habitación" and the proof says "—". */
  lemma RoomNameFallbacks(res: Reservation, opts: ExportOptions, fmt: Formatter)
    requires ChosenRoom(res, opts).None? && !Truthy(res.roomId)
    ensures InvoiceTable(res, opts)[1].description == "Alojamiento - Habitación"
    ensures ProofRows(res, opts, fmt)[1].1 == NO_VALUE
  {
  }

  /** The proof shows "—" for every missing figure and for a missing
      promotion. */
  lemma ProofPlaceholders(res: Reservation, opts: ExportOptions, fmt: Formatter)
    requires ChosenRoom(res, opts).None? && res.subtotal.None? && res.totalCost.None? && res.promotionApplied.None?
    ensures var rows := ProofRows(res, opts, fmt);
      rows[3].1 == NO_VALUE && rows[4].1 == NO_VALUE && rows[5].1 == NO_VALUE && rows[6].1 == NO_VALUE
  {
  }

  /** The Fechas cell of a one-night stay ends "(1 noche)". */
  lemma OneNightPhrase(res: Reservation)
    requires DiffNights(res.startDate, res.endDate) == Some(1)
    ensures DatesText(res) == FormatDisplayDate(res.startDate) + " – " + FormatDisplayDate(res.endDate) + " (1 noche)"
  {
    DatesCellPhrase(FormatDisplayDate(res.startDate), FormatDisplayDate(res.endDate), 1);
  }

  /** Without a start date the Fechas cell reads "— – <end> (0 noches)". */
  lemma MissingStartPhrase(res: Reservation)
    requires FalsyDate(res.startDate)
    ensures DatesText(res) == NO_VALUE + " – " + FormatDisplayDate(res.endDate) + " (0 noches)"
  {
    DatesCellPhrase(NO_VALUE, FormatDisplayDate(res.endDate), 0);
  }

  /** The cell for a count of 0 or 1, written out. */
  lemma DatesCellPhrase(a: string, b: string, n: nat)
    requires n <= 1
    ensures n == 1 ==> DatesCell(a, b, Some(n)) == a + " – " + b + " (1 noche)"
    ensures n == 0 ==> DatesCell(a, b, Some(n)) == a + " – " + b + " (0 noches)"
  {
    if n == 1 {
      assert NightsText(Some(1)) == "1" by { assert DigitChar(1) == '1'; }
      assert DatesCell(a, b, Some(1)) == a + " – " + b + " (" + "1" + " " + "noche" + ")";
    } else {
      assert NightsText(Some(0)) == "0" by { assert DigitChar(0) == '0'; }
      assert DatesCell(a, b, Some(0)) == a + " – " + b + " (" + "0" + " " + "noches" + ")";
    }
  }
}

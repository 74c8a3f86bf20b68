/** The invoice table: saving an invoice with its lines, the vehicle and
    date queries, the income totals and the invoice numbering. A calendar
    date is a day number; a date-time is a number of seconds, so day `d`
    covers the seconds from `DayStart(d)` up to, not including,
    `DayStart(d + 1)`. */
module InvoiceDao {
  import opened Wrappers
  import opened Text
  import opened JavaNumbers
  import opened Seqs
  import opened InvoiceEntity

  /** A stored service line. */
  datatype LineRow = LineRow(serialNumber: int, description: string, price: real)

  /** A stored invoice with its lines (saved by cascade). */
  datatype InvoiceRow = InvoiceRow(
    id: nat,
    invoiceNumber: string,
    invoiceDate: int,
    customerName: string,
    contactNumber: string,
    vehicleNumber: string,
    currentMileage: Option<int>,
    totalAmount: real,
    lines: seq<LineRow>)

  /** `persist` of an invoice that already has an identity, or a number
      that the unique constraint on `invoice_number` refuses. */
  datatype InvoiceSaveError = AlreadyPersisted | DuplicateInvoiceNumber

  const SECONDS_PER_DAY: int := 86400
  const PREFIX: string := "INV-"
  /** The number proposed when the table is empty. */
  const FIRST_NUMBER: string := "INV-00001"
  /** `%07d`. */
  const NUMBER_WIDTH: nat := 7

  /** `date.atStartOfDay()`. */
  function DayStart(date: int): int { date * SECONDS_PER_DAY }

  function TotalAmount(r: InvoiceRow): real { r.totalAmount }

  /** The stored form of the invoice's lines, in list order. */
  function Lines(items: seq<InvoiceItem>): (ls: seq<LineRow>)
    ensures |ls| == |items|
    ensures forall i :: 0 <= i < |items| ==>
      ls[i] == LineRow(items[i].serialNumber, items[i].description, items[i].price)
  {
    seq(|items|, i requires 0 <= i < |items| => LineRow(items[i].serialNumber, items[i].description, items[i].price))
  }

  /** The row that an invoice's state is saved as under identity `id`. */
  function RowOf(id: nat, invoice: Invoice): InvoiceRow
    reads invoice
  {
    InvoiceRow(id, invoice.invoiceNumber, invoice.invoiceDate, invoice.customerName,
               invoice.contactNumber, invoice.vehicleNumber, invoice.currentMileage,
               invoice.totalAmount, Lines(invoice.items))
  }

  /** `ORDER BY i.invoiceDate DESC`. */
  predicate NewestFirst(a: InvoiceRow, b: InvoiceRow) { a.invoiceDate >= b.invoiceDate }

  /** `i.invoiceDate >= :from AND i.invoiceDate < :until`. */
  function DatedWithin(from: int, until: int): InvoiceRow -> bool
  {
    (r: InvoiceRow) => from <= r.invoiceDate < until
  }

  /** `LOWER(i.vehicleNumber) LIKE LOWER('%' + vehicleNumber + '%')`. */
  function VehicleContains(vehicleNumber: string): InvoiceRow -> bool
  {
    (r: InvoiceRow) => Contains(ToLower(r.vehicleNumber), ToLower(vehicleNumber))
  }

  /** Some row already carries the invoice number. */
  predicate NumberTaken(rows: seq<InvoiceRow>, invoiceNumber: string)
  {
    exists k :: 0 <= k < |rows| && rows[k].invoiceNumber == invoiceNumber
  }

  /** `findByVehicleNumber`: the invoices whose vehicle number contains the
      text, ignoring case, newest first. */
  function FindByVehicleNumber(rows: seq<InvoiceRow>, vehicleNumber: string): seq<InvoiceRow>
  {
    Sort(NewestFirst, Filter(VehicleContains(vehicleNumber), rows))
  }

  /** `findByDateRange(date)`: the invoices of one day, newest first. */
  function FindByDate(rows: seq<InvoiceRow>, date: int): seq<InvoiceRow>
  {
    Sort(NewestFirst, Filter(DatedWithin(DayStart(date), DayStart(date + 1)), rows))
  }

  /** `findByDateRange(startDate, endDate)`: from the start of the first
      day to the end of the last, newest first. */
  function FindByDateRange(rows: seq<InvoiceRow>, startDate: int, endDate: int): seq<InvoiceRow>
  {
    Sort(NewestFirst, Filter(DatedWithin(DayStart(startDate), DayStart(endDate + 1)), rows))
  }

  /** `SUM(i.totalAmount)` over a window; a sum over no rows is null,
      which becomes 0. */
  function IncomeWithin(rows: seq<InvoiceRow>, from: int, until: int): real
  {
    var selected := Filter(DatedWithin(from, until), rows);
    if |selected| == 0 then 0.0 else SumReal(selected, TotalAmount)
  }

  /** `calculateTotalIncome(date)`. */
  function CalculateTotalIncomeOn(rows: seq<InvoiceRow>, date: int): real
  {
    IncomeWithin(rows, DayStart(date), DayStart(date + 1))
  }

  /** `calculateTotalIncome(startDate, endDate)`. */
  function CalculateTotalIncome(rows: seq<InvoiceRow>, startDate: int, endDate: int): real
  {
    IncomeWithin(rows, DayStart(startDate), DayStart(endDate + 1))
  }

  /** `isFirstInvoice`: `COUNT(i) = 0`. */
  predicate IsFirstInvoice(rows: seq<InvoiceRow>)
  {
    |rows| == 0
  }

  /** The row with the highest identity (`ORDER BY i.id DESC`, first
      result). */
  function HighestId(rows: seq<InvoiceRow>): (r: InvoiceRow)
    requires |rows| > 0
    ensures r in rows
    ensures forall k :: 0 <= k < |rows| ==> rows[k].id <= r.id
  {
    if |rows| == 1 then rows[0]
    else
      var rest := HighestId(rows[1..]);
      assert forall k :: 1 <= k < |rows| ==> rows[k] == rows[1..][k - 1];
      if rows[0].id > rest.id then rows[0] else rest
  }

  /** `generateNextInvoiceNumber`: the seed for an empty table, otherwise
      the number that follows the last invoice's. */
  function GenerateNextInvoiceNumber(rows: seq<InvoiceRow>): (r: Result<string, NumberFormatError>)
    ensures |rows| == 0 ==> r == Success(FIRST_NUMBER)
    ensures r.Success? ==> StartsWith(r.value, PREFIX)
  {
    if |rows| == 0 then Success(FIRST_NUMBER)
    else NextAfter(HighestId(rows).invoiceNumber, |rows|)
  }

  /** The number that follows `lastInvoiceNumber` when the table holds
      `count` invoices: one more than the number after "INV-", padded to
      seven digits; the count plus one when the last number has another
      shape. A suffix that is not an `int` fails as `parseInt` does. */
  function NextAfter(lastInvoiceNumber: string, count: nat): (r: Result<string, NumberFormatError>)
    ensures r.Success? ==> StartsWith(r.value, PREFIX)
  {
    if StartsWith(lastInvoiceNumber, PREFIX) then
      var numberPart := lastInvoiceNumber[4..];
      match ParseInt(numberPart)
      case Failure(e) => Failure(e)
      case Success(n) =>
        var nextNumber := Wrap32(n + 1);
        Success(PREFIX + FormatZeroPadded(nextNumber, NUMBER_WIDTH))
    else Success(PREFIX + FormatZeroPadded(count + 1, NUMBER_WIDTH))
  }

  class InvoiceStore {
    var rows: seq<InvoiceRow>
    var nextId: nat

    /** Identities are assigned in increasing order and invoice numbers
        are unique. */
    ghost predicate Valid()
      reads this
    {
      (forall i :: 0 <= i < |rows| ==> rows[i].id < nextId) &&
      (forall i, j :: 0 <= i < j < |rows| ==> rows[i].id < rows[j].id) &&
      (forall i, j :: 0 <= i < j < |rows| ==> rows[i].invoiceNumber != rows[j].invoiceNumber)
    }

    constructor ()
      ensures Valid() && rows == [] && nextId == 0
    {
      rows := [];
      nextId := 0;
    }

    /** `save`: persists the invoice and, by cascade, its lines under the
        next identity, unless it already has one or its number is taken. */
    method Save(invoice: Invoice) returns (outcome: Outcome<InvoiceSaveError>)
      requires Valid()
      modifies this, invoice`id
      ensures Valid()
      ensures outcome == if old(invoice.id).Some? then Fail(AlreadyPersisted)
                         else if NumberTaken(old(rows), invoice.invoiceNumber) then Fail(DuplicateInvoiceNumber)
                         else Pass
      ensures outcome.Fail? ==> rows == old(rows) && nextId == old(nextId)
      ensures outcome.Fail? ==> invoice.id == old(invoice.id)
      ensures outcome.Pass? ==>
        invoice.id == Some(old(nextId)) && rows == old(rows) + [RowOf(old(nextId), invoice)]
    {
      if invoice.id.Some? {
        return Fail(AlreadyPersisted);
      }
      if NumberTaken(rows, invoice.invoiceNumber) {
        return Fail(DuplicateInvoiceNumber);
      }
      var row := RowOf(nextId, invoice);
      rows := rows + [row];
      invoice.id := Some(nextId);
      nextId := nextId + 1;
      outcome := Pass;
    }
  }

  // ---------------------------------------------------------------------
  // Properties of the queries

  lemma NewestFirstTotalPreorder()
    ensures TotalPreorder(NewestFirst)
  {
  }

  /** A date query lists exactly the invoices its window holds, once each,
      newest first. */
  lemma WindowContents(rows: seq<InvoiceRow>, from: int, until: int)
    ensures var listed := Sort(NewestFirst, Filter(DatedWithin(from, until), rows));
      (forall r :: r in listed <==> r in rows && from <= r.invoiceDate < until) &&
      multiset(listed) == multiset(Filter(DatedWithin(from, until), rows)) &&
      SortedBy(NewestFirst, listed)
  {
    var p := DatedWithin(from, until);
    var kept := Filter(p, rows);
    var listed := Sort(NewestFirst, kept);
    NewestFirstTotalPreorder();
    SortPermutation(NewestFirst, kept);
    SortSorted(NewestFirst, kept);
    FilterIn(p, rows);
    SortIn(NewestFirst, kept);
  }

  /** One day's invoices are the invoices dated at or after its first
      second and before the next day's first second. */
  lemma FindByDateContents(rows: seq<InvoiceRow>, date: int)
    ensures forall r :: r in FindByDate(rows, date) <==>
      r in rows && DayStart(date) <= r.invoiceDate < DayStart(date) + SECONDS_PER_DAY
    ensures SortedBy(NewestFirst, FindByDate(rows, date))
  {
    WindowContents(rows, DayStart(date), DayStart(date + 1));
  }

  /** The two-date query covers the whole of its last day. */
  lemma FindByDateRangeContents(rows: seq<InvoiceRow>, startDate: int, endDate: int)
    ensures forall r :: r in FindByDateRange(rows, startDate, endDate) <==>
      r in rows && DayStart(startDate) <= r.invoiceDate < DayStart(endDate) + SECONDS_PER_DAY
    ensures SortedBy(NewestFirst, FindByDateRange(rows, startDate, endDate))
  {
    WindowContents(rows, DayStart(startDate), DayStart(endDate + 1));
  }

  /** The one-date query is the two-date query over a single day. */
  lemma OneDayIsRange(rows: seq<InvoiceRow>, date: int)
    ensures FindByDate(rows, date) == FindByDateRange(rows, date, date)
    ensures CalculateTotalIncomeOn(rows, date) == CalculateTotalIncome(rows, date, date)
  {
  }

  /** The income of a window is the sum of the totals of the invoices the
      matching query lists, and zero when it lists none. */
  lemma IncomeIsSumOfListed(rows: seq<InvoiceRow>, from: int, until: int)
    ensures IncomeWithin(rows, from, until) ==
      SumReal(Sort(NewestFirst, Filter(DatedWithin(from, until), rows)), TotalAmount)
    ensures |Filter(DatedWithin(from, until), rows)| == 0 ==> IncomeWithin(rows, from, until) == 0.0
  {
    SumRealSort(NewestFirst, Filter(DatedWithin(from, until), rows), TotalAmount);
  }

  /** `calculateTotalIncome(date)` adds up exactly what `findByDateRange(date)` lists. */
  lemma DayIncomeIsSumOfDay(rows: seq<InvoiceRow>, date: int)
    ensures CalculateTotalIncomeOn(rows, date) == SumReal(FindByDate(rows, date), TotalAmount)
  {
    IncomeIsSumOfListed(rows, DayStart(date), DayStart(date + 1));
  }

  /** `calculateTotalIncome(startDate, endDate)` adds up exactly what
      `findByDateRange(startDate, endDate)` lists. */
  lemma RangeIncomeIsSumOfRange(rows: seq<InvoiceRow>, startDate: int, endDate: int)
    ensures CalculateTotalIncome(rows, startDate, endDate) ==
      SumReal(FindByDateRange(rows, startDate, endDate), TotalAmount)
  {
    IncomeIsSumOfListed(rows, DayStart(startDate), DayStart(endDate + 1));
  }

  /** The vehicle search lists exactly the invoices whose vehicle number
      contains the text, ignoring case. */
  lemma VehicleSearchContents(rows: seq<InvoiceRow>, vehicleNumber: string)
    ensures forall r :: r in FindByVehicleNumber(rows, vehicleNumber) <==>
      r in rows && Contains(ToLower(r.vehicleNumber), ToLower(vehicleNumber))
    ensures SortedBy(NewestFirst, FindByVehicleNumber(rows, vehicleNumber))
  {
    var p := VehicleContains(vehicleNumber);
    var kept := Filter(p, rows);
    var listed := Sort(NewestFirst, kept);
    NewestFirstTotalPreorder();
    SortPermutation(NewestFirst, kept);
    SortSorted(NewestFirst, kept);
    FilterIn(p, rows);
    SortIn(NewestFirst, kept);
  }

  // ---------------------------------------------------------------------
  // Properties of the numbering

  /** With increasing identities the last invoice is the last row. */
  lemma {:induction false} HighestIsLast(rows: seq<InvoiceRow>)
    requires |rows| > 0
    requires forall i, j :: 0 <= i < j < |rows| ==> rows[i].id < rows[j].id
    ensures HighestId(rows) == rows[|rows| - 1]
  {
    if |rows| > 1 {
      var rest := rows[1..];
      assert forall i, j :: 0 <= i < j < |rest| ==> rest[i].id < rest[j].id by {
        forall i, j | 0 <= i < j < |rest| ensures rest[i].id < rest[j].id {
          assert rest[i] == rows[i + 1] && rest[j] == rows[j + 1];
        }
      }
      HighestIsLast(rest);
      assert rest[|rest| - 1] == rows[|rows| - 1];
      assert rows[0].id < rows[|rows| - 1].id;
    }
  }

  /** The number that follows "INV-" + n (seven digits) is "INV-" + (n + 1). */
  lemma NextNumberRoundTrip(lastInvoiceNumber: string, count: nat, n: int)
    requires 0 <= n < INT_MAX
    requires lastInvoiceNumber == PREFIX + FormatZeroPadded(n, NUMBER_WIDTH)
    ensures NextAfter(lastInvoiceNumber, count) == Success(PREFIX + FormatZeroPadded(n + 1, NUMBER_WIDTH))
  {
    assert lastInvoiceNumber[..4] == PREFIX;
    assert lastInvoiceNumber[4..] == FormatZeroPadded(n, NUMBER_WIDTH);
    ParseFormatRoundTrip(n, NUMBER_WIDTH);
  }

  /** On a table of increasing identities the number generated after the
      last invoice "INV-" + n is "INV-" + (n + 1). */
  lemma GenerateAfterLast(rows: seq<InvoiceRow>, n: int)
    requires |rows| > 0 && 0 <= n < INT_MAX
    requires forall i, j :: 0 <= i < j < |rows| ==> rows[i].id < rows[j].id
    requires rows[|rows| - 1].invoiceNumber == PREFIX + FormatZeroPadded(n, NUMBER_WIDTH)
    ensures GenerateNextInvoiceNumber(rows) == Success(PREFIX + FormatZeroPadded(n + 1, NUMBER_WIDTH))
  {
    HighestIsLast(rows);
    NextNumberRoundTrip(rows[|rows| - 1].invoiceNumber, |rows|, n);
  }

  /** A last number without the prefix gives "INV-" + (count + 1). */
  lemma NextNumberFallback(lastInvoiceNumber: string, count: nat)
    requires !StartsWith(lastInvoiceNumber, PREFIX)
    ensures NextAfter(lastInvoiceNumber, count) == Success(PREFIX + FormatZeroPadded(count + 1, NUMBER_WIDTH))
  {
  }

  /** A suffix that is not a number makes the generation fail. */
  lemma NextNumberParseError(lastInvoiceNumber: string, count: nat)
    requires StartsWith(lastInvoiceNumber, PREFIX)
    requires ParseInt(lastInvoiceNumber[4..]).Failure?
    ensures NextAfter(lastInvoiceNumber, count).Failure?
  {
  }

  /** The seed itself is followed by "INV-0000002": the five-digit suffix
      parses as 1. */
  lemma NumberAfterSeed(count: nat)
    ensures NextAfter(FIRST_NUMBER, count) == Success("INV-0000002")
  {
    assert FIRST_NUMBER[..4] == PREFIX;
    var suffix := FIRST_NUMBER[4..];
    assert suffix == "00001";
    assert AllDigits(suffix);
    assert DigitsValue(suffix) == 1 by {
      var z1, z2, z3, z4 := suffix[..1], suffix[..2], suffix[..3], suffix[..4];
      assert z1[..0] == [] && DigitsValue(z1) == 0;
      assert z2[..1] == z1 && DigitsValue(z2) == 0;
      assert z3[..2] == z2 && DigitsValue(z3) == 0;
      assert z4[..3] == z3 && DigitsValue(z4) == 0;
      assert suffix[..4] == z4;
    }
    assert ParseInt(suffix) == Success(1);
    assert FormatZeroPadded(2, NUMBER_WIDTH) == "0000002" by {
      assert NatDigits(2) == "2";
      assert Zeros(6) == "000000";
    }
    assert PREFIX + "0000002" == "INV-0000002";
  }

  /** An empty table proposes the seed and counts as the first invoice. */
  lemma EmptyTableGivesSeed()
    ensures GenerateNextInvoiceNumber([]) == Success(FIRST_NUMBER)
    ensures IsFirstInvoice([])
  {
  }
}

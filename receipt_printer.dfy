/** The receipt printer: an invoice becomes a stream of ESC/POS commands
    and text lines for a 32-column roll, framed by the initialise command
    and the paper cut; a printer is chosen by name. */
module ReceiptPrinting {
  import opened Wrappers
  import opened Text
  import opened Seqs
  import opened JavaNumbers
  import opened InvoiceEntity

  /** Characters per printed line. */
  const LINE_WIDTH: nat := 32
  /** The description column of an item row. */
  const DESCRIPTION_WIDTH: nat := 21
  /** What is kept of a description that does not fit, before "..". */
  const DESCRIPTION_KEPT: nat := 19
  /** The amount column of an item row. */
  const AMOUNT_WIDTH: nat := 10
  /** The width of the name field of the customer lines. */
  const CUSTOMER_FIELD_WIDTH: nat := 22

  /** The ESC/POS commands the printer is sent. */
  datatype Command =
    | Init | CutPaper | FeedLine
    | AlignCenter | AlignLeft | AlignRight
    | BoldOn | BoldOff
    | DoubleHeightOn | DoubleWidthOn | DoubleSizeOn | NormalSize

  /** The bytes of each command. */
  function CommandBytes(c: Command): seq<bv8>
  {
    match c
    case Init => [0x1B, 0x40]
    case CutPaper => [0x1D, 0x56, 0x00]
    case FeedLine => [0x0A]
    case AlignCenter => [0x1B, 0x61, 0x01]
    case AlignLeft => [0x1B, 0x61, 0x00]
    case AlignRight => [0x1B, 0x61, 0x02]
    case BoldOn => [0x1B, 0x45, 0x01]
    case BoldOff => [0x1B, 0x45, 0x00]
    case DoubleHeightOn => [0x1B, 0x21, 0x10]
    case DoubleWidthOn => [0x1B, 0x21, 0x20]
    case DoubleSizeOn => [0x1B, 0x21, 0x30]
    case NormalSize => [0x1B, 0x21, 0x00]
  }

  /** One write to the receipt stream: a command, literal text, or one of
      the lines whose exact characters come from a date or a grouped number
      format (kept as the value they show). An item row keeps its two
      column texts. */
  datatype Segment =
    | Cmd(command: Command)
    | Chars(text: string)
    | DateLine(date: int)
    | MileageLine(km: int)
    | Row(description: string, amount: string)

  predicate IsRow(s: Segment) { s.Row? }

  predicate IsMileage(s: Segment) { s.MileageLine? }

  /** A part of the stream with neither an item row nor a mileage line. */
  predicate Plain(part: seq<Segment>)
  {
    forall k :: 0 <= k < |part| ==> !part[k].Row? && !part[k].MileageLine?
  }

  /** `ByteArrayOutputStream.write`: the segment goes at the end. */
  method Write(out: seq<Segment>, seg: Segment) returns (r: seq<Segment>)
    ensures r == out + [seg]
    ensures Plain(out) && !seg.Row? && !seg.MileageLine? ==> Plain(r)
  {
    r := out + [seg];
  }

  function Spaces(k: nat): (r: string)
    ensures |r| == k && forall i :: 0 <= i < k ==> r[i] == ' '
  {
    seq(k, _ => ' ')
  }

  /** `%-<width>s`: left-aligned, padded with spaces on the right, never cut. */
  function PadRight(s: string, width: nat): (r: string)
    ensures |r| == if |s| >= width then |s| else width
    ensures r[..|s|] == s
    ensures forall i :: |s| <= i < |r| ==> r[i] == ' '
  {
    if |s| >= width then s else s + Spaces(width - |s|)
  }

  /** `%<width>s`: right-aligned, padded with spaces on the left, never cut. */
  function PadLeft(s: string, width: nat): (r: string)
    ensures |r| == if |s| >= width then |s| else width
    ensures r[|r| - |s|..] == s
    ensures forall i :: 0 <= i < |r| - |s| ==> r[i] == ' '
  {
    if |s| >= width then s else Spaces(width - |s|) + s
  }

  /** `String.format("%-21s %10s\n", description, amount)`. */
  function ItemText(description: string, amount: string): string
  {
    PadRight(description, DESCRIPTION_WIDTH) + " " + PadLeft(amount, AMOUNT_WIDTH) + "\n"
  }

  /** The description column of an item: a description longer than the
      column keeps its first 19 characters followed by "..". */
  function Truncate(description: string): (r: string)
    ensures |r| <= DESCRIPTION_WIDTH
    ensures r == description <==> |description| <= DESCRIPTION_WIDTH
    ensures |description| > DESCRIPTION_WIDTH ==> |r| == DESCRIPTION_WIDTH
  {
    if |description| > DESCRIPTION_WIDTH then description[..DESCRIPTION_KEPT] + ".." else description
  }

  /** The row printed for one invoice line: its description cut to the
      column and its price as `%.2f`. */
  function ItemLine(item: InvoiceItem): Segment
  {
    Row(Truncate(item.description), FormatFixed2(item.price))
  }

  /** The item rows of a receipt for the given lines, in order. */
  function Listing(items: seq<InvoiceItem>): seq<Segment>
  {
    Map(ItemLine, items)
  }

  lemma ListingStep(items: seq<InvoiceItem>, i: nat)
    requires i < |items|
    ensures Listing(items[..i + 1]) == Listing(items[..i]) + [ItemLine(items[i])]
  {
    MapStep(ItemLine, items, i);
  }

  /** The mileage line a receipt shows: one, exactly when the mileage is
      known and above zero. */
  function MileageLines(currentMileage: Option<int>): seq<Segment>
  {
    if currentMileage.Some? && currentMileage.value > 0 then [MileageLine(currentMileage.value)] else []
  }

  /** The printer `findPrintService` returns: one of the listed services, by
      position, or the system's default. */
  datatype PrintService = Service(index: nat) | DefaultService

  /** A service whose lower-cased name contains the lower-cased wanted name. */
  function NameMatches(wanted: string): string -> bool
  {
    (name: string) => Contains(ToLower(name), ToLower(wanted))
  }

  /** A service whose lower-cased name looks like an Epson receipt printer. */
  predicate IsReceiptPrinter(name: string)
  {
    var lower := ToLower(name);
    Contains(lower, "epson") || Contains(lower, "tm-u220") || Contains(lower, "tm-t")
  }

  /** `k` is the first position in `names` whose name satisfies `p`. */
  predicate FirstWith(p: string -> bool, names: seq<string>, k: nat)
  {
    k < |names| && p(names[k]) && forall j :: 0 <= j < k ==> !p(names[j])
  }

  predicate AnyWith(p: string -> bool, names: seq<string>)
  {
    exists k :: 0 <= k < |names| && p(names[k])
  }

  /** A printer name is configured when it is present and not empty. */
  predicate Configured(printerName: Option<string>)
  {
    printerName.Some? && |printerName.value| > 0
  }

  /** The position of the first name in `names` that satisfies `p`, if any. */
  function FirstIndex(p: string -> bool, names: seq<string>): (r: Option<nat>)
    ensures r.Some? ==> FirstWith(p, names, r.value)
    ensures r.None? ==> !AnyWith(p, names)
    decreases |names|
  {
    if |names| == 0 then None
    else if p(names[0]) then Some(0)
    else match FirstIndex(p, names[1..])
      case None =>
        assert forall j :: 1 <= j < |names| ==> names[j] == names[1..][j - 1];
        None
      case Some(k) =>
        assert forall j :: 1 <= j < k + 1 ==> names[j] == names[1..][j - 1];
        Some(k + 1)
  }

  /** The choice `findPrintService` makes: with a configured name, the
      first service whose name contains it, ignoring case; otherwise, or
      when none does, the first that looks like an Epson receipt printer;
      otherwise the default. */
  function ChooseService(printerName: Option<string>, services: seq<string>): PrintService
  {
    var named := if Configured(printerName) then FirstIndex(NameMatches(printerName.value), services) else None;
    if named.Some? then Service(named.value)
    else match FirstIndex(IsReceiptPrinter, services)
      case Some(k) => Service(k)
      case None => DefaultService
  }

  /** One pass of `findPrintService` over the services, in lookup order:
      the position of the first name that satisfies `p`, if any. */
  method FirstMatch(p: string -> bool, names: seq<string>) returns (k: Option<nat>)
    ensures k == FirstIndex(p, names)
    ensures k.Some? ==> FirstWith(p, names, k.value)
    ensures k.None? ==> !AnyWith(p, names)
  {
    var i := 0;
    while i < |names|
      invariant 0 <= i <= |names|
      invariant forall j :: 0 <= j < i ==> !p(names[j])
    {
      if p(names[i]) {
        return Some(i);
      }
      i := i + 1;
    }
    return None;
  }

  class ReceiptPrinter {
    /** The name of the wanted printer; absent means the default one. */
    var printerName: Option<string>

    /** `ReceiptPrinter()`: no printer name. */
    constructor ()
      ensures printerName == None
    {
      printerName := None;
    }

    /** `ReceiptPrinter(printerName)`. */
    constructor Named(printerName: Option<string>)
      ensures this.printerName == printerName
    {
      this.printerName := printerName;
    }

    /** `createLine(c)`: the character 32 times, then a newline. */
    method CreateLine(c: char) returns (line: string)
      ensures |line| == LINE_WIDTH + 1
      ensures forall i :: 0 <= i < LINE_WIDTH ==> line[i] == c
      ensures line[LINE_WIDTH] == '\n'
    {
      var sb: string := [];
      var i := 0;
      while i < LINE_WIDTH
        invariant 0 <= i <= LINE_WIDTH
        invariant |sb| == i
        invariant forall k :: 0 <= k < i ==> sb[k] == c
      {
        sb := sb + [c];
        i := i + 1;
      }
      line := sb + "\n";
    }

    /** The stream `printInvoice` builds and hands to the printer: it opens
        with the initialise command and closes with the paper cut, shows
        the mileage line only for a known mileage above zero, and has one
        item row per line of the invoice, in the invoice's order, with the
        description cut to its column and the price with two decimals. */
    method PrintInvoice(invoice: Invoice) returns (stream: seq<Segment>)
      ensures |stream| >= 2 && stream[0] == Cmd(Init) && stream[|stream| - 1] == Cmd(CutPaper)
      ensures Filter(IsMileage, stream) == MileageLines(invoice.currentMileage)
      ensures Filter(IsRow, stream) == Listing(invoice.items)
    {
      var init := Write([], Cmd(Init));
      var header := PrintHeader(invoice);
      var customer := PrintCustomer(invoice);
      var mileage: seq<Segment> := [];
      if invoice.currentMileage.Some? && invoice.currentMileage.value > 0 {
        mileage := Write(mileage, MileageLine(invoice.currentMileage.value));
      }
      var headings := PrintHeadings();
      var rows := PrintItems(invoice.items);
      var footer := PrintFooter(invoice.totalAmount);
      stream := init + header + customer + mileage + headings + rows + footer;
      PlainConcat(init, header);
      PlainConcat(init + header, customer);
      ListingRows(invoice.items);
      RowsOfReceipt(init + header + customer, mileage, headings, rows, footer);
      MileageOfReceipt(init + header + customer, mileage, headings, rows, footer);
    }

    /** Company name, invoice number and date. */
    method PrintHeader(invoice: Invoice) returns (part: seq<Segment>)
      ensures Plain(part)
    {
      part := Write([], Cmd(AlignCenter));
      part := Write(part, Cmd(DoubleHeightOn));
      part := Write(part, Cmd(BoldOn));
      part := Write(part, Chars("GALLEAUTO SERVICE\n"));
      part := Write(part, Cmd(NormalSize));
      part := Write(part, Chars("Vehicle Service Center\n"));
      var line := CreateLine('-');
      part := Write(part, Chars(line));
      part := Write(part, Cmd(FeedLine));
      part := Write(part, Cmd(AlignLeft));
      part := Write(part, Cmd(BoldOn));
      part := Write(part, Chars("Invoice: " + invoice.invoiceNumber + "\n"));
      part := Write(part, Cmd(BoldOff));
      part := Write(part, DateLine(invoice.invoiceDate));
      part := Write(part, Cmd(FeedLine));
    }

    /** Customer, contact and vehicle; the vehicle (and the mileage after
        it) in bold. */
    method PrintCustomer(invoice: Invoice) returns (part: seq<Segment>)
      ensures Plain(part)
    {
      var line := CreateLine('-');
      part := Write([], Chars(line));
      part := Write(part, Chars("Cust : " + PadRight(invoice.customerName, CUSTOMER_FIELD_WIDTH) + "\n"));
      part := Write(part, Chars("Tel  : " + PadRight(invoice.contactNumber, CUSTOMER_FIELD_WIDTH) + "\n"));
      part := Write(part, Cmd(BoldOn));
      part := Write(part, Chars("Veh  : " + PadRight(invoice.vehicleNumber, CUSTOMER_FIELD_WIDTH) + "\n"));
    }

    /** Bold off, and the column headings between separators. */
    method PrintHeadings() returns (part: seq<Segment>)
      ensures Plain(part)
    {
      part := Write([], Cmd(BoldOff));
      var line := CreateLine('-');
      part := Write(part, Chars(line));
      part := Write(part, Cmd(FeedLine));
      part := Write(part, Cmd(BoldOn));
      part := Write(part, Chars(ItemText("Description", "Amount")));
      part := Write(part, Cmd(BoldOff));
      line := CreateLine('-');
      part := Write(part, Chars(line));
    }

    /** One row per invoice line, in order; a description longer than its
        column is cut. */
    method PrintItems(items: seq<InvoiceItem>) returns (part: seq<Segment>)
      ensures part == Listing(items)
    {
      part := [];
      var i := 0;
      while i < |items|
        invariant 0 <= i <= |items|
        invariant part == Listing(items[..i])
      {
        var item := items[i];
        var desc := item.description;
        var price := FormatFixed2(item.price);
        if |desc| > DESCRIPTION_WIDTH {
          desc := desc[..DESCRIPTION_KEPT] + "..";
        }
        assert desc == Truncate(item.description);
        ListingStep(items, i);
        part := Write(part, Row(desc, price));
        i := i + 1;
      }
      assert items[..i] == items;
    }

    /** The total, the thanks, three blank lines and the paper cut. */
    method PrintFooter(totalAmount: real) returns (part: seq<Segment>)
      ensures Plain(part) && |part| > 0 && part[|part| - 1] == Cmd(CutPaper)
    {
      var line := CreateLine('-');
      part := Write([], Chars(line));
      part := Write(part, Cmd(FeedLine));
      part := Write(part, Cmd(AlignRight));
      part := Write(part, Cmd(BoldOn));
      part := Write(part, Cmd(DoubleHeightOn));
      part := Write(part, Chars("TOTAL: " + PadLeft(FormatFixed2(totalAmount), AMOUNT_WIDTH) + "\n"));
      part := Write(part, Cmd(NormalSize));
      part := Write(part, Cmd(BoldOff));
      part := Write(part, Cmd(FeedLine));
      part := Write(part, Cmd(AlignCenter));
      line := CreateLine('-');
      part := Write(part, Chars(line));
      part := Write(part, Chars("Thank you!\n"));
      part := Write(part, Chars("Visit us again\n"));
      part := Write(part, Cmd(FeedLine));
      part := Write(part, Cmd(FeedLine));
      part := Write(part, Cmd(FeedLine));
      part := Write(part, Cmd(CutPaper));
    }

    /** `testPrint`: a short page, also opened with the initialise command
        and closed with the paper cut, with no item rows and no mileage. */
    method TestPrint() returns (stream: seq<Segment>)
      ensures |stream| >= 2 && stream[0] == Cmd(Init) && stream[|stream| - 1] == Cmd(CutPaper)
      ensures Plain(stream)
    {
      var out := Write([], Cmd(Init));
      out := Write(out, Cmd(AlignCenter));
      out := Write(out, Cmd(DoubleSizeOn));
      out := Write(out, Chars("GALLEAUTO SERVICE\n"));
      out := Write(out, Cmd(NormalSize));
      out := Write(out, Chars("Printer Test\n"));
      var line := CreateLine('-');
      out := Write(out, Chars(line));
      out := Write(out, Chars("Printer is working!\n"));
      out := Write(out, Cmd(FeedLine));
      out := Write(out, Cmd(FeedLine));
      out := Write(out, Cmd(FeedLine));
      out := Write(out, Cmd(CutPaper));
      stream := out;
    }

    /** `findPrintService` over the names of the installed services, in
        lookup order: with a configured name, the first service whose name
        contains it, ignoring case; otherwise, or when none does, the first
        that looks like an Epson receipt printer; otherwise the default. */
    method FindPrintService(services: seq<string>) returns (choice: PrintService)
      ensures choice == ChooseService(printerName, services)
      ensures Configured(printerName) && AnyWith(NameMatches(printerName.value), services) ==>
        choice.Service? && FirstWith(NameMatches(printerName.value), services, choice.index)
      ensures !(Configured(printerName) && AnyWith(NameMatches(printerName.value), services)) &&
              AnyWith(IsReceiptPrinter, services) ==>
        choice.Service? && FirstWith(IsReceiptPrinter, services, choice.index)
      ensures !(Configured(printerName) && AnyWith(NameMatches(printerName.value), services)) &&
              !AnyWith(IsReceiptPrinter, services) ==>
        choice == DefaultService
    {
      if printerName.Some? && |printerName.value| > 0 {
        var named := FirstMatch(NameMatches(printerName.value), services);
        if named.Some? {
          return Service(named.value);
        }
      }
      var receipt := FirstMatch(IsReceiptPrinter, services);
      if receipt.Some? {
        return Service(receipt.value);
      }
      return DefaultService;
    }
  }

  // ---------------------------------------------------------------------
  // Properties of the layout

  /** The receipt lists row `i` for line `i`: its description cut to the
      column and its price with two decimals. */
  lemma ListingRows(items: seq<InvoiceItem>)
    ensures |Listing(items)| == |items|
    ensures forall i :: 0 <= i < |items| ==>
      Listing(items)[i] == ItemLine(items[i])
  {
    MapAt(ItemLine, items);
  }

  lemma PlainConcat(a: seq<Segment>, b: seq<Segment>)
    requires Plain(a) && Plain(b)
    ensures Plain(a + b)
  {
    forall k | 0 <= k < |a + b|
      ensures !(a + b)[k].Row? && !(a + b)[k].MileageLine?
    {
      if k >= |a| {
        assert (a + b)[k] == b[k - |a|];
      }
    }
  }

  /** The item rows of a stream made of plain parts, a mileage part and a
      part of rows: exactly that part. */
  lemma RowsOfReceipt(head: seq<Segment>, mileage: seq<Segment>, middle: seq<Segment>,
                      rows: seq<Segment>, tail: seq<Segment>)
    requires Plain(head) && Plain(middle) && Plain(tail)
    requires forall k :: 0 <= k < |mileage| ==> mileage[k].MileageLine?
    requires forall k :: 0 <= k < |rows| ==> rows[k].Row?
    ensures Filter(IsRow, head + mileage + middle + rows + tail) == rows
  {
    var b := head + mileage + middle;
    NoRowsBefore(head, mileage, middle);
    RowsThenPlain(rows, tail);
    FilterConcat(IsRow, b, rows + tail);
    Regroup(head, mileage, middle, rows, tail);
  }

  /** The two ways the stream of five parts is split in the lemmas above. */
  lemma Regroup(head: seq<Segment>, mileage: seq<Segment>, middle: seq<Segment>,
                rows: seq<Segment>, tail: seq<Segment>)
    ensures head + mileage + middle + rows + tail == (head + mileage + middle) + (rows + tail)
    ensures head + mileage + middle + rows + tail == (head + mileage) + (middle + rows + tail)
  {
  }

  lemma NoRowsBefore(head: seq<Segment>, mileage: seq<Segment>, middle: seq<Segment>)
    requires Plain(head) && Plain(middle)
    requires forall k :: 0 <= k < |mileage| ==> mileage[k].MileageLine?
    ensures Filter(IsRow, head + mileage + middle) == []
  {
    FilterConcat(IsRow, head + mileage, middle);
    FilterConcat(IsRow, head, mileage);
    FilterNone(IsRow, head);
    FilterNone(IsRow, mileage);
    FilterNone(IsRow, middle);
  }

  lemma RowsThenPlain(rows: seq<Segment>, tail: seq<Segment>)
    requires forall k :: 0 <= k < |rows| ==> rows[k].Row?
    requires Plain(tail)
    ensures Filter(IsRow, rows + tail) == rows
  {
    FilterConcat(IsRow, rows, tail);
    FilterAll(IsRow, rows);
    FilterNone(IsRow, tail);
  }

  /** The mileage lines of such a stream: exactly the mileage part. */
  lemma MileageOfReceipt(head: seq<Segment>, mileage: seq<Segment>, middle: seq<Segment>,
                         rows: seq<Segment>, tail: seq<Segment>)
    requires Plain(head) && Plain(middle) && Plain(tail)
    requires forall k :: 0 <= k < |mileage| ==> mileage[k].MileageLine?
    requires forall k :: 0 <= k < |rows| ==> rows[k].Row?
    ensures Filter(IsMileage, head + mileage + middle + rows + tail) == mileage
  {
    var a := head + mileage;
    var rest := middle + rows + tail;
    assert Filter(IsMileage, a) == mileage by {
      FilterConcat(IsMileage, head, mileage);
      FilterNone(IsMileage, head);
      FilterAll(IsMileage, mileage);
    }
    assert Filter(IsMileage, rest) == [] by {
      FilterConcat(IsMileage, middle + rows, tail);
      FilterConcat(IsMileage, middle, rows);
      FilterNone(IsMileage, middle);
      FilterNone(IsMileage, rows);
      FilterNone(IsMileage, tail);
    }
    FilterConcat(IsMileage, a, rest);
    Regroup(head, mileage, middle, rows, tail);
  }

  /** A cut description is its first 19 characters and "..", 21 in all; a
      description that fits is shown whole; cutting twice cuts nothing more. */
  lemma TruncateKeepsStart(description: string)
    ensures |description| > DESCRIPTION_WIDTH ==>
      Truncate(description)[..DESCRIPTION_KEPT] == description[..DESCRIPTION_KEPT] &&
      Truncate(description)[DESCRIPTION_KEPT..] == ".."
    ensures Truncate(Truncate(description)) == Truncate(description)
  {
  }

  /** An amount below ten million keeps its two-decimal text within the
      amount column. */
  lemma AmountFitsColumn(price: real)
    requires 0.0 <= price && Cents(price) < 1_000_000_000
    ensures |FormatFixed2(price)| <= AMOUNT_WIDTH
  {
    assert Pow10(7) == 10_000_000 && Pow10(2) == 100;
    NatDigitsLength(Cents(price) / 100, 7);
    NatDigitsLength(Cents(price) % 100, 2);
  }

  /** With an amount below ten million, every item row fills the 32 columns
      exactly: 21 for the description, a space and 10 for the amount. */
  lemma ItemRowFitsPaper(description: string, price: real)
    requires 0.0 <= price && Cents(price) < 1_000_000_000
    ensures |ItemText(Truncate(description), FormatFixed2(price))| == LINE_WIDTH + 1
  {
    AmountFitsColumn(price);
  }

  /** A configured name is preferred over an Epson listed before it: when
      some service matches the name, the first match is chosen, and a
      receipt printer that does not match is never chosen, wherever it is
      listed. */
  lemma ConfiguredNameWins(printerName: string, services: seq<string>)
    requires |printerName| > 0
    requires AnyWith(NameMatches(printerName), services)
    ensures ChooseService(Some(printerName), services).Service?
    ensures FirstWith(NameMatches(printerName), services, ChooseService(Some(printerName), services).index)
    ensures forall j :: (0 <= j < |services| && IsReceiptPrinter(services[j]) &&
                         !NameMatches(printerName)(services[j])) ==>
      ChooseService(Some(printerName), services) != Service(j)
  {
    var k := FirstIndex(NameMatches(printerName), services);
    assert k.Some?;
    assert ChooseService(Some(printerName), services) == Service(k.value);
  }
}

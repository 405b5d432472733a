// The ticket detail modal: it loads a ticket's line items and exports a PDF
// receipt, laid out on a 210 mm wide page with a running vertical position.

module Receipt {
  import opened Common

  // ---------------------------------------------------------------------------
  // Table rows

  /** The line's subtotal, recomputed from the item rather than taken from the server. */
  function Subtotal(item: LineItem): nat {
    item.quantity * item.unit_price
  }

  /** One body row of the items table: quantity, name, unit price, recomputed subtotal. */
  function TableRow(item: LineItem): (row: seq<string>)
    ensures |row| == 4
    ensures row[0] == NatToString(item.quantity) && row[1] == item.item_name
    ensures row[2] == Money(item.unit_price)
    ensures row[3] == Money(Subtotal(item))
  {
    [NatToString(item.quantity), item.item_name, Money(item.unit_price), Money(Subtotal(item))]
  }

  /** `items.map(...)`: the table body, one row per line item in the order given. */
  function TableData(items: seq<LineItem>): seq<seq<string>>
    decreases |items|
  {
    if items == [] then [] else [TableRow(items[0])] + TableData(items[1..])
  }

  lemma {:induction false} TableDataRows(items: seq<LineItem>)
    ensures |TableData(items)| == |items|
    ensures forall i :: 0 <= i < |items| ==> TableData(items)[i] == TableRow(items[i])
    decreases |items|
  {
    if items != [] {
      var rest := TableData(items[1..]);
      TableDataRows(items[1..]);
      assert TableData(items) == [TableRow(items[0])] + rest;
      forall i | 1 <= i < |items| ensures TableData(items)[i] == TableRow(items[i]) {
        assert TableData(items)[i] == rest[i - 1];
        assert items[1..][i - 1] == items[i];
      }
    }
  }

  /** Concatenating item lists concatenates their rows: no row moves or merges. */
  lemma {:induction false} TableDataAppend(a: seq<LineItem>, b: seq<LineItem>)
    ensures TableData(a + b) == TableData(a) + TableData(b)
    decreases |a|
  {
    if a == [] {
      assert a + b == b;
    } else {
      assert (a + b)[0] == a[0];
      assert (a + b)[1..] == a[1..] + b;
      TableDataAppend(a[1..], b);
    }
  }

  /** The quantity and unit price cells read back as the item's own values. */
  lemma RowReadsBack(item: LineItem)
    ensures ParseNat(TableRow(item)[0]) == item.quantity
    ensures ParseCents(TableRow(item)[2][1..]) == item.unit_price
  {
    ParseNatToString(item.quantity);
    MoneyReadsBack(item.unit_price);
  }

  /** The subtotal cell reads back as quantity × unit price, whatever the item carried. */
  lemma SubtotalReadsBack(item: LineItem)
    ensures ParseCents(TableRow(item)[3][1..]) == Subtotal(item) == item.quantity * item.unit_price
  {
    MoneyReadsBack(Subtotal(item));
  }

  /** Coffee and muffin: the subtotals are 2 × 4.99 = 9.98 and 1 × 9.99 = 9.99. */
  lemma SubtotalExample()
    ensures TableRow(LineItem("Coffee", 2, 499))[3] == "$9.98"
    ensures TableRow(LineItem("Muffin", 1, 999))[3] == "$9.99"
  {
  }

  // ---------------------------------------------------------------------------
  // Draw instructions

  datatype Align = Left | Right | Center

  datatype Color = Rgb(r: nat, g: nat, b: nat)

  const Primary := Rgb(41, 98, 255)
  const Green := Rgb(34, 197, 94)

  datatype DrawOp =
    | FillRect(x: real, y: real, w: real, h: real, fill: Color)
    | Text(s: string, x: real, y: real, align: Align)
    | Line(x1: real, y1: real, x2: real, y2: real)
    | Table(startY: real, head: seq<string>, body: seq<seq<string>>, widths: seq<real>, marginLeft: real, marginRight: real)

  /** A finished export: the draw instructions in order and the name the file is saved under. */
  datatype Document = Document(ops: seq<DrawOp>, fileName: string)

  const PageWidth: real := 210.0
  const MarginLeft: real := 20.0
  const MarginRight: real := 20.0
  const ColumnWidths: seq<real> := [20.0, 90.0, 30.0, 30.0]
  const TableHead: seq<string> := ["Cant.", "Descripción", "P. Unit.", "Subtotal"]

  function SumReals(xs: seq<real>): real
    decreases |xs|
  {
    if xs == [] then 0.0 else xs[0] + SumReals(xs[1..])
  }

  /** The four columns fill the page between the margins, as the divider lines do (x 20 to 190). */
  lemma ColumnsFillPrintableWidth()
    ensures SumReals(ColumnWidths) == PageWidth - MarginLeft - MarginRight
    ensures MarginLeft + PageWidth - MarginLeft - MarginRight == 190.0
  {
    assert ColumnWidths[1..][1..][1..][1..] == [];
  }

  /** What jsPDF's table plugin reports after drawing: each `finalY`, absent when there was no table. */
  datatype TableReport = TableReport(lastFinalY: Option<real>, previousFinalY: Option<real>)

  predicate Truthy(y: Option<real>) {
    y.Some? && y.value != 0.0
  }

  /** `lastAutoTable?.finalY || previousAutoTable?.finalY || yPos + 50`. */
  function TableEnd(report: TableReport, yPos: real): (y: real)
    ensures Truthy(report.lastFinalY) ==> y == report.lastFinalY.value
    ensures !Truthy(report.lastFinalY) && Truthy(report.previousFinalY) ==> y == report.previousFinalY.value
    ensures !Truthy(report.lastFinalY) && !Truthy(report.previousFinalY) ==> y == yPos + 50.0
  {
    if Truthy(report.lastFinalY) then report.lastFinalY.value
    else if Truthy(report.previousFinalY) then report.previousFinalY.value
    else yPos + 50.0
  }

  /** `parseFloat(ticket.total_amount).toFixed(2)`: a missing amount prints as NaN. */
  function TotalText(t: Ticket): (s: string)
    ensures t.total_amount.Some? ==> s == Money(t.total_amount.value)
    ensures t.total_amount.None? ==> s == "$NaN"
  {
    match t.total_amount
    case Some(c) => Money(c)
    case None => "$NaN"
  }

  /** The total box shows the stored amount, which reads back exactly. */
  lemma TotalReadsBack(t: Ticket)
    requires t.total_amount.Some?
    ensures ParseCents(TotalText(t)[1..]) == t.total_amount.value
  {
    MoneyReadsBack(t.total_amount.value);
  }

  /** `Ticket_<correlative_number>.pdf`: the display number reads back from between the prefix and the extension. */
  function FileName(t: Ticket): (name: string)
    ensures |name| >= 12 && name[..7] == "Ticket_" && name[|name| - 4..] == ".pdf"
    ensures AllDigits(name[7..|name| - 4]) && ParseNat(name[7..|name| - 4]) == t.correlative_number
  {
    var digits := NatToString(t.correlative_number);
    ParseNatToString(t.correlative_number);
    assert ("Ticket_" + digits + ".pdf")[7..|digits| + 7] == digits;
    "Ticket_" + digits + ".pdf"
  }

  /** Two tickets with different display numbers never export under the same name. */
  lemma {:induction false} FileNameInjective(a: Ticket, b: Ticket)
    requires FileName(a) == FileName(b)
    ensures a.correlative_number == b.correlative_number
  {
    var sa, sb := NatToString(a.correlative_number), NatToString(b.correlative_number);
    assert |sa| == |sb|;
    assert sa == FileName(a)[7..7 + |sa|];
    assert sb == FileName(b)[7..7 + |sb|];
    NatToStringInjective(a.correlative_number, b.correlative_number);
  }

  /**
   * The locale-rendered strings the export prints: the date and time of the
   * ticket's own `created_at_local`, and the wall-clock moment of the export.
   */
  datatype Clock = Clock(dateText: string, timeText: string, generatedAt: string)

  // ---------------------------------------------------------------------------
  // The modal

  const DetailsError := "Error al cargar los detalles del ticket"

  class TicketDetailModal {
    const ticket: Ticket
    var items: seq<LineItem>
    var loading: bool
    var error: Option<string>

    /** The modal as it mounts: nothing loaded, loading, no error. */
    constructor(ticket: Ticket)
      ensures this.ticket == ticket
      ensures items == [] && loading && error == None
    {
      this.ticket := ticket;
      items := [];
      loading := true;
      error := None;
    }

    /** The request `fetchDetails` issues for this ticket. */
    function ItemsRequest(): (req: ApiRequest)
      ensures req.verb == Get && req.query == []
      ensures req.path == "/tickets/" + NatToString(ticket.id) + "/items"
    {
      ApiRequest(Get, "/tickets/" + NatToString(ticket.id) + "/items", [])
    }

    /** `fetchDetails`' outcome: items on success, the error text on failure, never loading after. */
    method CompleteFetchDetails(res: Result<seq<LineItem>, ApiError>)
      modifies this
      ensures res.Success? ==> items == res.value && error == old(error)
      ensures res.Failure? ==> items == old(items) && error == Some(DetailsError)
      ensures !loading
      ensures ExportDisabled() <==> error.Some?
    {
      if res.Success? {
        items := res.value;
      } else {
        error := Some(DetailsError);
      }
      loading := false;
    }

    /** `disabled={loading || error}` on the PDF button. */
    predicate ExportDisabled()
      reads this
    {
      loading || error.Some?
    }

    /**
     * `handleExportPDF`: draws the header band, the ticket information block, the
     * items table, the total box at the table's reported end and the footer, then
     * names the file after the ticket's display number.
     */
    method HandleExportPdf(report: TableReport, pageHeight: real, clock: Clock) returns (doc: Document)
      requires !ExportDisabled()
      ensures FillRect(0.0, 0.0, PageWidth, 45.0, Primary) in doc.ops
      ensures Text("Ticket #" + NatToString(ticket.correlative_number), 20.0, 38.0, Left) in doc.ops
      ensures Text("Información del Ticket", 20.0, 55.0, Left) in doc.ops
      ensures Line(20.0, 57.0, 190.0, 57.0) in doc.ops
      ensures Text(ticket.username, 45.0, 65.0, Left) in doc.ops
      ensures Text(ticket.location_name, 135.0, 65.0, Left) in doc.ops
      ensures Text(ticket.payment_type, 45.0, 73.0, Left) in doc.ops
      ensures Text("Detalle de Items", 20.0, 88.0, Left) in doc.ops
      ensures Line(20.0, 90.0, 190.0, 90.0) in doc.ops
      ensures Table(96.0, TableHead, TableData(items), ColumnWidths, MarginLeft, MarginRight) in doc.ops
      ensures var y := TableEnd(report, 96.0);
        && FillRect(130.0, y, 60.0, 15.0, Green) in doc.ops
        && Text("TOTAL:", 135.0, y + 6.0, Left) in doc.ops
        && Text(TotalText(ticket), 185.0, y + 10.0, Right) in doc.ops
      ensures Text("Gracias por su compra", 105.0, pageHeight - 15.0, Center) in doc.ops
      ensures Text("Generado el " + clock.generatedAt, 105.0, pageHeight - 10.0, Center) in doc.ops
      ensures doc.fileName == FileName(ticket)
    {
      var header := [
        FillRect(0.0, 0.0, PageWidth, 45.0, Primary),
        Text("TuriCash", 20.0, 20.0, Left),
        Text("Sistema de Gestión de Ventas", 20.0, 28.0, Left),
        Text("Ticket #" + NatToString(ticket.correlative_number), 20.0, 38.0, Left),
        Text("Fecha: " + clock.dateText, 150.0, 25.0, Right),
        Text("Hora: " + clock.timeText, 150.0, 32.0, Right)];

      // ticket information
      var yPos: real := 55.0;
      var info := [Text("Información del Ticket", 20.0, yPos, Left), Line(20.0, yPos + 2.0, 190.0, yPos + 2.0)];
      yPos := yPos + 10.0;
      var leftCol, rightCol := 20.0, 110.0;
      info := info + [
        Text("Cajero:", leftCol, yPos, Left), Text(ticket.username, leftCol + 25.0, yPos, Left),
        Text("Ubicación:", rightCol, yPos, Left), Text(ticket.location_name, rightCol + 25.0, yPos, Left)];
      yPos := yPos + 8.0;
      info := info + [Text("Tipo de Pago:", leftCol, yPos, Left), Text(ticket.payment_type, leftCol + 25.0, yPos, Left)];
      yPos := yPos + 15.0;

      // items
      var table := [Text("Detalle de Items", 20.0, yPos, Left), Line(20.0, yPos + 2.0, 190.0, yPos + 2.0)];
      yPos := yPos + 8.0;
      table := table + [Table(yPos, TableHead, TableData(items), ColumnWidths, MarginLeft, MarginRight)];

      // total
      var finalY := TableEnd(report, yPos);
      var total := [
        FillRect(130.0, finalY, 60.0, 15.0, Green),
        Text("TOTAL:", 135.0, finalY + 6.0, Left),
        Text(TotalText(ticket), 185.0, finalY + 10.0, Right)];

      // footer
      var footer := [
        Text("Gracias por su compra", 105.0, pageHeight - 15.0, Center),
        Text("Generado el " + clock.generatedAt, 105.0, pageHeight - 10.0, Center)];

      var ops := header + info + table + total + footer;
      doc := Document(ops, FileName(ticket));
    }
  }

  /**
   * Once the items arrive the export is enabled, and the receipt's table is
   * made of exactly those items; a failed load keeps the export disabled.
   */
  method ExportAfterLoad(ticket: Ticket, res: Result<seq<LineItem>, ApiError>, report: TableReport, pageHeight: real, clock: Clock)
    returns (doc: Option<Document>)
    ensures doc.Some? <==> res.Success?
    ensures res.Success? ==> Table(96.0, TableHead, TableData(res.value), ColumnWidths, MarginLeft, MarginRight) in doc.value.ops
  {
    var modal := new TicketDetailModal(ticket);
    modal.CompleteFetchDetails(res);
    if modal.ExportDisabled() {
      doc := None;
    } else {
      var d := modal.HandleExportPdf(report, pageHeight, clock);
      doc := Some(d);
    }
  }

  /** Without a reported table end the total box sits 50 below the table start, at 146. */
  lemma TotalBoxFallback(report: TableReport)
    requires !Truthy(report.lastFinalY) && !Truthy(report.previousFinalY)
    ensures TableEnd(report, 96.0) == 146.0
  {
  }
}

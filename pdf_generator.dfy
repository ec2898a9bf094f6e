/**
 * `generateQuotePDF`: the layout of a quote on A4 pages. Only the vertical
 * decisions and the content of every element are modelled: what is drawn, on
 * which page and at which height `currentY` puts it. Fonts, colours and
 * x-coordinates are not. jsPDF is the class `Doc` (its page count, its current
 * page and the elements placed so far); the helpers whose code is not part of
 * this model (`formatCurrency`, `formatDate`, `toString` of numbers,
 * `splitTextToSize`, the height autoTable reaches, the blob URL) arrive in
 * `Inputs`.
 *
 * The pure section functions below are the layout's specification; the
 * methods at the end draw the same sections step by step on a `Doc`.
 */
module PdfGenerator {
  import opened Types
  import Seqs
  import Text
  import Pricing
  import QuoteList

  /** The A4 page of jsPDF's default format, 595.28 x 841.89 points, in millimetres. */
  const PageWidth: real := 595.28 * 25.4 / 72.0
  const PageHeight: real := 841.89 * 25.4 / 72.0
  const Margin: real := 15.0
  const ContentWidth: real := PageWidth - Margin * 2.0

  /** Where an autoTable call left the document: the last row's bottom and the pages it added. */
  datatype TableEnd = TableEnd(finalY: real, pagesAdded: nat)

  /** What the generator takes from code this model does not contain. */
  datatype Inputs = Inputs(
    formatCurrency: real -> string,
    formatDate: string -> string,
    intToString: int -> string,
    realToString: real -> string,
    /** `doc.splitTextToSize(line, contentWidth)` */
    splitTextToSize: string -> seq<string>,
    servicesTable: TableEnd,
    materialsTable: TableEnd,
    blobUrl: string)

  datatype TableKind = ServicesTable | MaterialsTable

  /** Every element the generator draws, by its role. */
  datatype Block =
    | Logo
    | Title
    | Subtitle
    | QuoteNumber(text: string)
    | IssueDate(text: string)
    | ValidUntilLine(text: string)
    | StatusLine(text: string)
    | Divider
    | ClientHeading
    | ClientName(text: string)
    | ClientPhone(text: string)
    | ClientAddress(text: string)
    | Table(kind: TableKind, rows: seq<seq<string>>)
    | MaterialsHeading
    | TotalRow(caption: string, amount: string)
    | TotalRule
    | GrandTotal(amount: string)
    | ObservationsHeading
    | ObservationsBox(height: real)
    | ObservationsText(lines: seq<string>)
    | SignatureLines
    | SignatureLabels
    | Footer(text: string)

  /** An element drawn on a page (numbered from 1) at a height. */
  datatype Placed = Placed(page: nat, y: real, block: Block)

  /** The current page and `currentY`. */
  datatype Pen = Pen(page: nat, y: real)

  /** What a section draws and where it leaves the pen. */
  datatype Section = Section(blocks: seq<Placed>, pen: Pen)

  /** `if (quote.validUntil)`: present and not the empty string. */
  predicate HasValidity(q: Quote)
  {
    q.validUntil.Some? && q.validUntil.value != ""
  }

  /** The logo square at the top margin, the title, the quote number and the issue date. */
  function TitleBlocks(q: Quote, io: Inputs): seq<Placed>
  {
    [Placed(1, Margin, Logo), Placed(1, 25.0, Title), Placed(1, 30.0, Subtitle),
     Placed(1, 20.0, QuoteNumber("Orçamento #" + Text.ToUpper(q.id))),
     Placed(1, 25.0, IssueDate("Emissão: " + io.formatDate(q.date)))]
  }

  /** The validity line, when there is a date, and the status line below it or in its place. */
  function StatusBlocks(q: Quote, io: Inputs): seq<Placed>
  {
    var status := "Status: " + Text.ToUpper(StatusName(q.status));
    if HasValidity(q)
    then [Placed(1, 30.0, ValidUntilLine("Válido até: " + io.formatDate(q.validUntil.value))), Placed(1, 35.0, StatusLine(status))]
    else [Placed(1, 30.0, StatusLine(status))]
  }

  /** The divider and the client block. */
  function ClientBlocks(q: Quote): seq<Placed>
  {
    [Placed(1, 40.0, Divider), Placed(1, 50.0, ClientHeading),
     Placed(1, 58.0, ClientName("Nome: " + q.clientName)),
     Placed(1, 64.0, ClientPhone("WhatsApp: " + Text.OrElse(q.clientPhone, "Não informado"))),
     Placed(1, 70.0, ClientAddress("Endereço: " + Text.OrElse(q.address, "Não informado")))]
  }

  /** The header and client block of the first page. */
  function HeaderBlocks(q: Quote, io: Inputs): seq<Placed>
  {
    TitleBlocks(q, io) + StatusBlocks(q, io) + ClientBlocks(q)
  }

  /**
   * The header holds one status line: at 35 below a validity line when the
   * quote has a validity date, at 30 in that line's place when it has none.
   * Everything in it is on the first page, above the divider at 70 or less.
   */
  lemma HeaderLayout(q: Quote, io: Inputs)
    ensures var h := HeaderBlocks(q, io);
      (forall k :: 0 <= k < |h| ==> h[k].page == 1 && h[k].y <= 70.0)
      && (exists k :: 0 <= k < |h| && h[k].block.StatusLine?
            && h[k].y == (if HasValidity(q) then 35.0 else 30.0)
            && h[k].block.text == "Status: " + Text.ToUpper(StatusName(q.status)))
      && (forall k, j :: 0 <= k < |h| && 0 <= j < |h| && h[k].block.StatusLine? && h[j].block.StatusLine? ==> k == j)
      && ((exists k :: 0 <= k < |h| && h[k].block.ValidUntilLine?) <==> HasValidity(q))
  {
    var h := HeaderBlocks(q, io);
    if HasValidity(q) {
      assert h[6].block.StatusLine? && h[5].block.ValidUntilLine?;
    } else {
      assert h[5].block.StatusLine?;
    }
  }

  /** The client block shows the name, and the phone and address or "Não informado" in place of an empty one. */
  lemma ClientFallbacks(q: Quote, io: Inputs)
    ensures Placed(1, 58.0, ClientName("Nome: " + q.clientName)) in HeaderBlocks(q, io)
    ensures q.clientPhone == "" ==> Placed(1, 64.0, ClientPhone("WhatsApp: Não informado")) in HeaderBlocks(q, io)
    ensures q.clientPhone != "" ==> Placed(1, 64.0, ClientPhone("WhatsApp: " + q.clientPhone)) in HeaderBlocks(q, io)
    ensures q.address == "" ==> Placed(1, 70.0, ClientAddress("Endereço: Não informado")) in HeaderBlocks(q, io)
    ensures q.address != "" ==> Placed(1, 70.0, ClientAddress("Endereço: " + q.address)) in HeaderBlocks(q, io)
  {
    var h := HeaderBlocks(q, io);
    var at := if HasValidity(q) then 9 else 8;
    assert h[at] == Placed(1, 58.0, ClientName("Nome: " + q.clientName));
    assert h[at + 1] == Placed(1, 64.0, ClientPhone("WhatsApp: " + Text.OrElse(q.clientPhone, "Não informado")));
    assert h[at + 2] == Placed(1, 70.0, ClientAddress("Endereço: " + Text.OrElse(q.address, "Não informado")));
    assert "WhatsApp: " + "Não informado" == "WhatsApp: Não informado";
    assert "Endereço: " + "Não informado" == "Endereço: Não informado";
  }

  /** The elements of a list of placements, in order. */
  function Blocks(ps: seq<Placed>): (r: seq<Block>)
    ensures |r| == |ps| && forall k :: 0 <= k < |ps| ==> r[k] == ps[k].block
  {
    Seqs.Map(ps, (p: Placed) => p.block)
  }

  /** One row of the services table; a service line has no unit of its own, so the column says "un". */
  function ServiceRow(s: SelectedService, io: Inputs): seq<string>
  {
    [s.description, io.intToString(s.quantity), "un", io.formatCurrency(s.unitPrice), io.formatCurrency(Pricing.ServiceLine(s))]
  }

  /** One row of the materials table; an empty unit is printed as "un". */
  function MaterialRow(m: MaterialItem, io: Inputs): seq<string>
  {
    [m.description, io.realToString(m.quantity), if m.unit == "" then "un" else m.unit,
     io.formatCurrency(m.unitPrice), io.formatCurrency(Pricing.MaterialLine(m))]
  }

  function ServiceRows(q: Quote, io: Inputs): (r: seq<seq<string>>)
    ensures |r| == |q.services|
    ensures forall k :: 0 <= k < |r| ==> |r[k]| == 5 && r[k][0] == q.services[k].description && r[k][2] == "un"
  {
    Seqs.Map(q.services, (s: SelectedService) => ServiceRow(s, io))
  }

  function MaterialRows(q: Quote, io: Inputs): (r: seq<seq<string>>)
    ensures |r| == |q.materials|
    ensures forall k :: 0 <= k < |r| ==> |r[k]| == 5 && r[k][0] == q.materials[k].description && r[k][2] != ""
    ensures forall k :: 0 <= k < |r| ==> r[k][2] == (if q.materials[k].unit == "" then "un" else q.materials[k].unit)
  {
    Seqs.Map(q.materials, (m: MaterialItem) => MaterialRow(m, io))
  }

  /**
   * The page-break rule shared by the sections: when the pen is below
   * `bottom`, a new page is added and the pen goes to `top` on it.
   */
  function BreakBelow(pen: Pen, bottom: real, top: real): (r: Pen)
    ensures pen.y > bottom ==> r == Pen(pen.page + 1, top)
    ensures pen.y <= bottom ==> r == pen
  {
    if pen.y > bottom then Pen(pen.page + 1, top) else pen
  }

  /** After the rule the pen is at most at the bottom (when the top is above it), at most one page further. */
  lemma BreakBelowBounds(pen: Pen, bottom: real, top: real)
    requires top <= bottom
    ensures BreakBelow(pen, bottom, top).y <= bottom
    ensures pen.page <= BreakBelow(pen, bottom, top).page <= pen.page + 1
  {
  }

  /** The services table starts at 80 on the first page; the pen goes 10 below its last row. */
  function ServicesPart(q: Quote, io: Inputs): Section
  {
    Section([Placed(1, 80.0, Table(ServicesTable, ServiceRows(q, io)))],
            Pen(1 + io.servicesTable.pagesAdded, io.servicesTable.finalY + 10.0))
  }

  /** The materials heading and table, drawn only when the quote has materials, on a new page when the pen is below H - 50. */
  function MaterialsPart(q: Quote, io: Inputs, pen: Pen): (s: Section)
    ensures q.materials == [] <==> s.blocks == []
    ensures q.materials == [] ==> s.pen == pen
    ensures q.materials != [] ==>
      var p := BreakBelow(pen, PageHeight - 50.0, 20.0);
      s.blocks == [Placed(p.page, p.y, MaterialsHeading), Placed(p.page, p.y + 5.0, Table(MaterialsTable, MaterialRows(q, io)))]
      && s.pen == Pen(p.page + io.materialsTable.pagesAdded, io.materialsTable.finalY + 10.0)
  {
    if q.materials == [] then Section([], pen)
    else
      var p := BreakBelow(pen, PageHeight - 50.0, 20.0);
      Section([Placed(p.page, p.y, MaterialsHeading), Placed(p.page, p.y + 5.0, Table(MaterialsTable, MaterialRows(q, io)))],
              Pen(p.page + io.materialsTable.pagesAdded, io.materialsTable.finalY + 10.0))
  }

  /** The caption and amount of each row of the totals block, in order. */
  function TotalRows(q: Quote, io: Inputs): (rows: seq<(string, string)>)
    ensures 2 <= |rows| <= 4
  {
    [("Subtotal Mão de Obra:", io.formatCurrency(Pricing.ServicesSubtotal(q.services))),
     ("Subtotal Materiais:", io.formatCurrency(Pricing.MaterialsSubtotal(q.materials)))]
    + (if q.travelFee > 0.0 then [("Taxa de Deslocamento:", io.formatCurrency(q.travelFee))] else [])
    + (if q.discount > 0.0 then [("Desconto:", "- " + io.formatCurrency(q.discount))] else [])
  }

  /**
   * Both subtotals are always shown; the travel fee row exactly when there is
   * a fee, the discount row (shown as a deduction) exactly when there is a
   * discount.
   */
  lemma TotalRowsShown(q: Quote, io: Inputs)
    ensures var rows := TotalRows(q, io);
      rows[0] == ("Subtotal Mão de Obra:", io.formatCurrency(Pricing.ServicesSubtotal(q.services)))
      && rows[1] == ("Subtotal Materiais:", io.formatCurrency(Pricing.MaterialsSubtotal(q.materials)))
      && ((exists k :: 0 <= k < |rows| && rows[k].0 == "Taxa de Deslocamento:") <==> q.travelFee > 0.0)
      && ((exists k :: 0 <= k < |rows| && rows[k].0 == "Desconto:") <==> q.discount > 0.0)
      && (forall k :: 0 <= k < |rows| && rows[k].0 == "Taxa de Deslocamento:" ==> rows[k].1 == io.formatCurrency(q.travelFee))
      && (forall k :: 0 <= k < |rows| && rows[k].0 == "Desconto:" ==> rows[k].1 == "- " + io.formatCurrency(q.discount))
  {
    var rows := TotalRows(q, io);
    assert q.travelFee > 0.0 ==> rows[2].0 == "Taxa de Deslocamento:";
    assert q.discount > 0.0 ==> rows[|rows| - 1].0 == "Desconto:";
  }

  /** The rows placed 6 apart from `y` down. */
  function PlaceRows(page: nat, y: real, rows: seq<(string, string)>): (r: seq<Placed>)
    ensures |r| == |rows|
    ensures forall k :: 0 <= k < |rows| ==> r[k] == Placed(page, y + 6.0 * k as real, TotalRow(rows[k].0, rows[k].1))
  {
    seq(|rows|, k requires 0 <= k < |rows| => Placed(page, y + 6.0 * k as real, TotalRow(rows[k].0, rows[k].1)))
  }

  /** One more row goes 6 below the previous one. */
  lemma PlaceRowsSnoc(page: nat, y: real, rows: seq<(string, string)>, row: (string, string))
    ensures PlaceRows(page, y, rows + [row]) == PlaceRows(page, y, rows) + [Placed(page, y + 6.0 * |rows| as real, TotalRow(row.0, row.1))]
  {
    var r := rows + [row];
    assert forall k :: 0 <= k < |rows| ==> r[k] == rows[k];
  }

  /**
   * The totals block, on a new page at 20 when the pen is below H - 70: the
   * rows 6 apart, then a rule and the grand total 10 below the last row, all
   * on one page. The grand total includes the travel fee.
   */
  function TotalsPart(q: Quote, io: Inputs, pen: Pen): (s: Section)
    ensures |s.blocks| == |TotalRows(q, io)| + 2
    ensures forall k :: 0 <= k < |s.blocks| ==> s.blocks[k].page == s.pen.page
    ensures s.blocks[|s.blocks| - 1] == Placed(s.pen.page, s.pen.y, GrandTotal(io.formatCurrency(Pricing.QuoteTotal(q))))
    ensures pen.y > PageHeight - 70.0 ==> s.pen.page == pen.page + 1 && s.blocks[0].y == 20.0
    ensures pen.y <= PageHeight - 70.0 ==> s.pen.page == pen.page && s.blocks[0].y == pen.y
    ensures s.pen.y == s.blocks[0].y + 6.0 * (|TotalRows(q, io)| - 1) as real + 10.0
  {
    var p := BreakBelow(pen, PageHeight - 70.0, 20.0);
    var rows := TotalRows(q, io);
    var last := p.y + 6.0 * (|rows| - 1) as real;
    Section(PlaceRows(p.page, p.y, rows)
            + [Placed(p.page, last + 5.0, TotalRule), Placed(p.page, last + 10.0, GrandTotal(io.formatCurrency(Pricing.QuoteTotal(q))))],
            Pen(p.page, last + 10.0))
  }

  /** The grand total printed is the total the quote list shows for the same quote. */
  lemma GrandTotalMatchesList(q: Quote, io: Inputs, pen: Pen)
    ensures var b := TotalsPart(q, io, pen).blocks;
      b[|b| - 1].block == GrandTotal(io.formatCurrency(QuoteList.CalculateQuoteTotal(q)))
  {
  }

  /** The wrapped lines of each piece, concatenated in order. */
  function WrapAll(pieces: seq<string>, wrap: string -> seq<string>): seq<string>
  {
    if pieces == [] then [] else wrap(pieces[0]) + WrapAll(pieces[1..], wrap)
  }

  lemma {:induction false} WrapAllAppend(a: seq<string>, b: seq<string>, wrap: string -> seq<string>)
    ensures WrapAll(a + b, wrap) == WrapAll(a, wrap) + WrapAll(b, wrap)
  {
    if a == [] {
      assert a + b == b;
    } else {
      assert (a + b)[1..] == a[1..] + b;
      WrapAllAppend(a[1..], b, wrap);
    }
  }

  /** The observation lines: the text split on line breaks, each piece wrapped to the content width. */
  function ObservationLines(q: Quote, io: Inputs): seq<string>
  {
    WrapAll(Text.Split(q.observations, '\n'), io.splitTextToSize)
  }

  /**
   * The user's line breaks are kept: the lines of two paragraphs are the lines
   * of each, one after the other, and when the wrapper leaves a piece whole the
   * lines are exactly the paragraphs.
   */
  lemma ParagraphsWrappedSeparately(a: string, b: string, wrap: string -> seq<string>)
    ensures WrapAll(Text.Split(a + "\n" + b, '\n'), wrap)
         == WrapAll(Text.Split(a, '\n'), wrap) + WrapAll(Text.Split(b, '\n'), wrap)
    ensures (forall s :: wrap(s) == [s]) ==> WrapAll(Text.Split(a, '\n'), wrap) == Text.Split(a, '\n')
  {
    Text.SplitAround(a, b, '\n');
    WrapAllAppend(Text.Split(a, '\n'), Text.Split(b, '\n'), wrap);
    if forall s :: wrap(s) == [s] {
      WrapWhole(Text.Split(a, '\n'), wrap);
    }
  }

  lemma {:induction false} WrapWhole(pieces: seq<string>, wrap: string -> seq<string>)
    requires forall s :: wrap(s) == [s]
    ensures WrapAll(pieces, wrap) == pieces
  {
    if pieces != [] {
      WrapWhole(pieces[1..], wrap);
      assert pieces == [pieces[0]] + pieces[1..];
    }
  }

  /** The height the observations take: 5 per line and 15 for heading and margins. */
  function ObservationsHeight(lineCount: nat): real
  {
    5.0 * lineCount as real + 15.0
  }

  /**
   * The observations, drawn only when there are some: 20 below the totals,
   * or at 20 on a new page when the box would pass H - 60.
   */
  function ObservationsPart(q: Quote, io: Inputs, pen: Pen): (s: Section)
    ensures q.observations == "" <==> s.blocks == []
    ensures q.observations == "" ==> s.pen == pen
    ensures q.observations != "" ==>
      var lines := ObservationLines(q, io);
      var h := ObservationsHeight(|lines|);
      var p := BreakBelow(Pen(pen.page, pen.y + 20.0), PageHeight - 60.0 - h, 20.0);
      s.blocks == [Placed(p.page, p.y, ObservationsHeading),
                   Placed(p.page, p.y + 4.0, ObservationsBox(5.0 * |lines| as real + 6.0)),
                   Placed(p.page, p.y + 10.0, ObservationsText(lines))]
      && s.pen == Pen(p.page, p.y + h)
  {
    if q.observations == "" then Section([], pen)
    else
      var lines := ObservationLines(q, io);
      var h := ObservationsHeight(|lines|);
      var p := BreakBelow(Pen(pen.page, pen.y + 20.0), PageHeight - 60.0 - h, 20.0);
      Section([Placed(p.page, p.y, ObservationsHeading),
               Placed(p.page, p.y + 4.0, ObservationsBox(5.0 * |lines| as real + 6.0)),
               Placed(p.page, p.y + 10.0, ObservationsText(lines))],
              Pen(p.page, p.y + h))
  }

  /**
   * Observations short enough for a page end at or above H - 60. A longer
   * box is moved to 20 on a new page and still runs past H - 60: the
   * generator does not split it.
   */
  lemma ObservationsFit(q: Quote, io: Inputs, pen: Pen)
    requires q.observations != ""
    ensures var h := ObservationsHeight(|ObservationLines(q, io)|);
      var s := ObservationsPart(q, io, pen);
      (h <= PageHeight - 80.0 ==> s.pen.y <= PageHeight - 60.0)
      && (h > PageHeight - 80.0 && pen.y >= 0.0 ==> s.pen == Pen(pen.page + 1, 20.0 + h))
  {
  }

  /** The signature lines: on a new page at 40 when the pen is below H - 50, otherwise at H - 45. */
  function SignaturesPart(pen: Pen): (s: Section)
    ensures |s.blocks| == 2 && s.blocks[0].block == SignatureLines && s.blocks[1].block == SignatureLabels
    ensures s.blocks[1] == Placed(s.pen.page, s.pen.y + 5.0, SignatureLabels) && s.blocks[0] == Placed(s.pen.page, s.pen.y, SignatureLines)
    ensures pen.y > PageHeight - 50.0 ==> s.pen == Pen(pen.page + 1, 40.0)
    ensures pen.y <= PageHeight - 50.0 ==> s.pen == Pen(pen.page, PageHeight - 45.0)
  {
    var p := if pen.y > PageHeight - 50.0 then Pen(pen.page + 1, 40.0) else Pen(pen.page, PageHeight - 45.0);
    Section([Placed(p.page, p.y, SignatureLines), Placed(p.page, p.y + 5.0, SignatureLabels)], p)
  }

  /** The signatures are always drawn below what came before them on their page, and above the footer. */
  lemma SignaturesBelowContent(pen: Pen)
    ensures var s := SignaturesPart(pen);
      (s.pen.page == pen.page ==> s.pen.y > pen.y) && s.pen.page <= pen.page + 1
      && s.blocks[1].y < PageHeight - 10.0
  {
  }

  /** Drawing `b` after `a`. */
  function Then(a: Section, b: Section): (s: Section)
    ensures s.blocks == a.blocks + b.blocks && s.pen == b.pen
  {
    Section(a.blocks + b.blocks, b.pen)
  }

  /** The first page's header, the services table and the materials, with the pen where they leave it. */
  function Opening(q: Quote, io: Inputs): Section
  {
    var services := ServicesPart(q, io);
    Then(Then(Section(HeaderBlocks(q, io), Pen(1, 80.0)), services), MaterialsPart(q, io, services.pen))
  }

  /** Everything but the footers, with the pen where the signatures leave it. */
  function Body(q: Quote, io: Inputs): Section
  {
    var opening := Opening(q, io);
    var totals := TotalsPart(q, io, opening.pen);
    var observations := ObservationsPart(q, io, totals.pen);
    Then(Then(Then(opening, totals), observations), SignaturesPart(observations.pen))
  }

  /**
   * A section drawn from `from` never goes back a page and draws no footer:
   * its elements are on the pages from the pen it started at to the pen it
   * leaves.
   */
  predicate Within(from: Pen, s: Section)
  {
    from.page <= s.pen.page
    && forall k :: 0 <= k < |s.blocks| ==> from.page <= s.blocks[k].page <= s.pen.page && !s.blocks[k].block.Footer?
  }

  lemma ThenWithin(from: Pen, a: Section, b: Section)
    requires Within(from, a) && Within(a.pen, b)
    ensures Within(from, Then(a, b))
  {
    var s := Then(a, b);
    forall k | 0 <= k < |s.blocks|
      ensures from.page <= s.blocks[k].page <= s.pen.page && !s.blocks[k].block.Footer?
    {
      if k >= |a.blocks| {
        assert s.blocks[k] == b.blocks[k - |a.blocks|];
      }
    }
  }

  /** Each section stays within its pages. */
  lemma HeaderWithin(q: Quote, io: Inputs)
    ensures Within(Pen(1, 0.0), Section(HeaderBlocks(q, io), Pen(1, 80.0)))
  {
  }

  lemma ServicesWithin(q: Quote, io: Inputs)
    ensures Within(Pen(1, 80.0), ServicesPart(q, io))
  {
  }

  lemma MaterialsWithin(q: Quote, io: Inputs, pen: Pen)
    ensures Within(pen, MaterialsPart(q, io, pen))
  {
  }

  lemma TotalsWithin(q: Quote, io: Inputs, pen: Pen)
    ensures Within(pen, TotalsPart(q, io, pen))
  {
  }

  lemma ObservationsWithin(q: Quote, io: Inputs, pen: Pen)
    ensures Within(pen, ObservationsPart(q, io, pen))
  {
  }

  lemma SignaturesWithin(pen: Pen)
    ensures Within(pen, SignaturesPart(pen))
  {
  }

  /** The body starts on the first page and ends on the last: every element is on a page from 1 to the page count, and none is a footer. */
  lemma BodyWithin(q: Quote, io: Inputs)
    ensures Within(Pen(1, 0.0), Body(q, io))
  {
    var header := Section(HeaderBlocks(q, io), Pen(1, 80.0));
    var services := ServicesPart(q, io);
    HeaderWithin(q, io);
    ServicesWithin(q, io);
    MaterialsWithin(q, io, services.pen);
    ThenWithin(Pen(1, 0.0), header, services);
    ThenWithin(Pen(1, 0.0), Then(header, services), MaterialsPart(q, io, services.pen));
    var opening := Opening(q, io);
    var totals := TotalsPart(q, io, opening.pen);
    var observations := ObservationsPart(q, io, totals.pen);
    TotalsWithin(q, io, opening.pen);
    ObservationsWithin(q, io, totals.pen);
    SignaturesWithin(observations.pen);
    ThenWithin(Pen(1, 0.0), opening, totals);
    ThenWithin(Pen(1, 0.0), Then(opening, totals), observations);
    ThenWithin(Pen(1, 0.0), Then(Then(opening, totals), observations), SignaturesPart(observations.pen));
  }

  /** The footer text of page `i` of `n`. */
  function FooterText(i: nat, n: nat): string
  {
    "Página " + Text.NatToString(i) + " de " + Text.NatToString(n) + " - Gerado por Orça Eletricista Pro"
  }

  /** The footers of pages 1 to `upTo` of a document of `n` pages, in page order. */
  function Footers(upTo: nat, n: nat): (r: seq<Placed>)
    ensures |r| == upTo
    ensures forall k :: 0 <= k < upTo ==> r[k] == Placed(k + 1, PageHeight - 10.0, Footer(FooterText(k + 1, n)))
  {
    if upTo == 0 then [] else Footers(upTo - 1, n) + [Placed(upTo, PageHeight - 10.0, Footer(FooterText(upTo, n)))]
  }

  /** The whole document: the body, then the footer pass over every page. */
  function Rendering(q: Quote, io: Inputs): seq<Placed>
  {
    var body := Body(q, io);
    body.blocks + Footers(body.pen.page, body.pen.page)
  }

  /** Footer `p` of `n`, whatever page it is on. */
  function IsFooterOf(p: nat): Placed -> bool
  {
    (x: Placed) => x.block.Footer? && x.page == p
  }

  lemma {:induction false} FootersOnePerPage(upTo: nat, n: nat, p: nat)
    ensures Seqs.Count(Footers(upTo, n), IsFooterOf(p)) == (if 1 <= p <= upTo then 1 else 0)
  {
    if upTo > 0 {
      FootersOnePerPage(upTo - 1, n, p);
      var f := Placed(upTo, PageHeight - 10.0, Footer(FooterText(upTo, n)));
      Seqs.CountAppend(Footers(upTo - 1, n), [f], IsFooterOf(p));
      assert Seqs.Count([f], IsFooterOf(p)) == (if IsFooterOf(p)(f) then 1 else 0) + Seqs.Count([f][1..], IsFooterOf(p));
    }
  }

  /** Every page from 1 to the final page count carries exactly one footer, and no other page carries one. */
  lemma EveryPageStampedOnce(q: Quote, io: Inputs, p: nat)
    ensures var n := Body(q, io).pen.page;
      Seqs.Count(Rendering(q, io), IsFooterOf(p)) == (if 1 <= p <= n then 1 else 0)
  {
    BodyWithin(q, io);
    StampedOnce(Body(q, io), p);
  }

  /** A body without footers, followed by the footer pass over its pages, has one footer per page. */
  lemma StampedOnce(body: Section, p: nat)
    requires Within(Pen(1, 0.0), body)
    ensures Seqs.Count(body.blocks + Footers(body.pen.page, body.pen.page), IsFooterOf(p)) == (if 1 <= p <= body.pen.page then 1 else 0)
  {
    Seqs.CountNone(body.blocks, IsFooterOf(p));
    FootersOnePerPage(body.pen.page, body.pen.page, p);
    Seqs.CountAppend(body.blocks, Footers(body.pen.page, body.pen.page), IsFooterOf(p));
  }

  /** The element `b`, wherever it is placed. */
  function IsBlock(b: Block): Placed -> bool
  {
    (x: Placed) => x.block == b
  }

  /** The elements that only one late section of the document draws. */
  predicate SectionMark(b: Block)
  {
    b == MaterialsHeading || b == ObservationsHeading || b == SignatureLabels
  }

  /** The sections of the document, in drawing order, and the footers after them. */
  lemma RenderingIsParts(q: Quote, io: Inputs)
    ensures var services := ServicesPart(q, io);
      var materials := MaterialsPart(q, io, services.pen);
      var totals := TotalsPart(q, io, Opening(q, io).pen);
      var observations := ObservationsPart(q, io, totals.pen);
      var signatures := SignaturesPart(observations.pen);
      Body(q, io).pen == signatures.pen
      && Rendering(q, io) == HeaderBlocks(q, io) + services.blocks + materials.blocks + totals.blocks
           + observations.blocks + signatures.blocks + Footers(signatures.pen.page, signatures.pen.page)
  {
  }

  /** Counting over seven consecutive parts. */
  lemma CountSeven(p1: seq<Placed>, p2: seq<Placed>, p3: seq<Placed>, p4: seq<Placed>, p5: seq<Placed>, p6: seq<Placed>, p7: seq<Placed>, f: Placed -> bool)
    ensures Seqs.Count(p1 + p2 + p3 + p4 + p5 + p6 + p7, f)
      == Seqs.Count(p1, f) + Seqs.Count(p2, f) + Seqs.Count(p3, f) + Seqs.Count(p4, f)
         + Seqs.Count(p5, f) + Seqs.Count(p6, f) + Seqs.Count(p7, f)
  {
    Seqs.CountAppend(p1, p2, f);
    Seqs.CountAppend(p1 + p2, p3, f);
    Seqs.CountAppend(p1 + p2 + p3, p4, f);
    Seqs.CountAppend(p1 + p2 + p3 + p4, p5, f);
    Seqs.CountAppend(p1 + p2 + p3 + p4 + p5, p6, f);
    Seqs.CountAppend(p1 + p2 + p3 + p4 + p5 + p6, p7, f);
  }

  /** A section mark in the document is counted in the three late sections only. */
  lemma MarksInLateSections(q: Quote, io: Inputs, b: Block)
    requires SectionMark(b)
    ensures var services := ServicesPart(q, io);
      var totals := TotalsPart(q, io, Opening(q, io).pen);
      var observations := ObservationsPart(q, io, totals.pen);
      var f := IsBlock(b);
      Seqs.Count(Rendering(q, io), f)
      == Seqs.Count(MaterialsPart(q, io, services.pen).blocks, f) + Seqs.Count(observations.blocks, f)
         + Seqs.Count(SignaturesPart(observations.pen).blocks, f)
  {
    RenderingIsParts(q, io);
    OthersLackMarks(q, io, b);
    var services := ServicesPart(q, io);
    var totals := TotalsPart(q, io, Opening(q, io).pen);
    var observations := ObservationsPart(q, io, totals.pen);
    var signatures := SignaturesPart(observations.pen);
    LateOnly(HeaderBlocks(q, io), services.blocks, MaterialsPart(q, io, services.pen).blocks, totals.blocks,
      observations.blocks, signatures.blocks, Footers(signatures.pen.page, signatures.pen.page), IsBlock(b));
  }

  lemma OthersLackMarks(q: Quote, io: Inputs, b: Block)
    requires SectionMark(b)
    ensures var totals := TotalsPart(q, io, Opening(q, io).pen);
      var signatures := SignaturesPart(ObservationsPart(q, io, totals.pen).pen);
      var f := IsBlock(b);
      Seqs.Count(HeaderBlocks(q, io), f) == 0 && Seqs.Count(ServicesPart(q, io).blocks, f) == 0
      && Seqs.Count(totals.blocks, f) == 0 && Seqs.Count(Footers(signatures.pen.page, signatures.pen.page), f) == 0
  {
    var totals := TotalsPart(q, io, Opening(q, io).pen);
    var signatures := SignaturesPart(ObservationsPart(q, io, totals.pen).pen);
    HeaderLacksMarks(q, io, b);
    ServicesLackMarks(q, io, b);
    TotalsLackMarks(q, io, Opening(q, io).pen, b);
    FootersLackMarks(signatures.pen.page, signatures.pen.page, b);
  }

  lemma LateOnly(p1: seq<Placed>, p2: seq<Placed>, p3: seq<Placed>, p4: seq<Placed>, p5: seq<Placed>, p6: seq<Placed>, p7: seq<Placed>, f: Placed -> bool)
    requires Seqs.Count(p1, f) == 0 && Seqs.Count(p2, f) == 0 && Seqs.Count(p4, f) == 0 && Seqs.Count(p7, f) == 0
    ensures Seqs.Count(p1 + p2 + p3 + p4 + p5 + p6 + p7, f) == Seqs.Count(p3, f) + Seqs.Count(p5, f) + Seqs.Count(p6, f)
  {
    CountSeven(p1, p2, p3, p4, p5, p6, p7, f);
  }

  /** The header, the services table, the totals and the footers draw none of the section marks. */
  lemma HeaderLacksMarks(q: Quote, io: Inputs, b: Block)
    requires SectionMark(b)
    ensures Seqs.Count(HeaderBlocks(q, io), IsBlock(b)) == 0
  {
    Seqs.CountNone(HeaderBlocks(q, io), IsBlock(b));
  }

  lemma ServicesLackMarks(q: Quote, io: Inputs, b: Block)
    requires SectionMark(b)
    ensures Seqs.Count(ServicesPart(q, io).blocks, IsBlock(b)) == 0
  {
    Seqs.CountNone(ServicesPart(q, io).blocks, IsBlock(b));
  }

  lemma TotalsLackMarks(q: Quote, io: Inputs, pen: Pen, b: Block)
    requires SectionMark(b)
    ensures Seqs.Count(TotalsPart(q, io, pen).blocks, IsBlock(b)) == 0
  {
    var t := TotalsPart(q, io, pen).blocks;
    var rows := TotalRows(q, io);
    forall k | 0 <= k < |t|
      ensures t[k].block.TotalRow? || t[k].block.TotalRule? || t[k].block.GrandTotal?
    {
      if k < |rows| {
        var p := BreakBelow(pen, PageHeight - 70.0, 20.0);
        assert t[k] == PlaceRows(p.page, p.y, rows)[k];
      }
    }
    Seqs.CountNone(t, IsBlock(b));
  }

  lemma FootersLackMarks(upTo: nat, n: nat, b: Block)
    requires SectionMark(b)
    ensures Seqs.Count(Footers(upTo, n), IsBlock(b)) == 0
  {
    Seqs.CountNone(Footers(upTo, n), IsBlock(b));
  }

  /** Two elements, counted one by one. */
  lemma CountTwo(x: Placed, y: Placed, f: Placed -> bool)
    ensures Seqs.Count([x, y], f) == (if f(x) then 1 else 0) + (if f(y) then 1 else 0)
  {
    assert [x, y] == [x] + [y];
    Seqs.CountAppend([x], [y], f);
    assert [x][1..] == [] && [y][1..] == [];
  }

  lemma CountThree(x: Placed, y: Placed, z: Placed, f: Placed -> bool)
    ensures Seqs.Count([x, y, z], f) == (if f(x) then 1 else 0) + (if f(y) then 1 else 0) + (if f(z) then 1 else 0)
  {
    assert [x, y, z][1..] == [y, z];
    CountTwo(y, z, f);
  }

  /** The materials section draws its heading once when there are materials, and no other mark. */
  lemma MaterialsMarks(q: Quote, io: Inputs, pen: Pen, b: Block)
    requires SectionMark(b)
    ensures Seqs.Count(MaterialsPart(q, io, pen).blocks, IsBlock(b)) == (if b == MaterialsHeading && q.materials != [] then 1 else 0)
  {
    var m := MaterialsPart(q, io, pen).blocks;
    if q.materials != [] {
      CountTwo(m[0], m[1], IsBlock(b));
      assert m == [m[0], m[1]];
    }
  }

  /** The observations section draws its heading once when there are observations, and no other mark. */
  lemma ObservationsMarks(q: Quote, io: Inputs, pen: Pen, b: Block)
    requires SectionMark(b)
    ensures Seqs.Count(ObservationsPart(q, io, pen).blocks, IsBlock(b)) == (if b == ObservationsHeading && q.observations != "" then 1 else 0)
  {
    var o := ObservationsPart(q, io, pen).blocks;
    if q.observations != "" {
      CountThree(o[0], o[1], o[2], IsBlock(b));
      assert o == [o[0], o[1], o[2]];
    }
  }

  /** The signatures section draws the signature labels once, and no other mark. */
  lemma SignaturesMarks(pen: Pen, b: Block)
    requires SectionMark(b)
    ensures Seqs.Count(SignaturesPart(pen).blocks, IsBlock(b)) == (if b == SignatureLabels then 1 else 0)
  {
    var g := SignaturesPart(pen).blocks;
    CountTwo(g[0], g[1], IsBlock(b));
    assert g == [g[0], g[1]];
  }

  /** The document has the "MATERIAIS" heading, once, exactly when the quote has materials. */
  lemma MaterialsHeadingShown(q: Quote, io: Inputs)
    ensures Seqs.Count(Rendering(q, io), IsBlock(MaterialsHeading)) == (if q.materials != [] then 1 else 0)
  {
    var b := MaterialsHeading;
    var totals := TotalsPart(q, io, Opening(q, io).pen);
    var observations := ObservationsPart(q, io, totals.pen);
    MarksInLateSections(q, io, b);
    MaterialsMarks(q, io, ServicesPart(q, io).pen, b);
    ObservationsMarks(q, io, totals.pen, b);
    SignaturesMarks(observations.pen, b);
  }

  /** The document has the observations heading, once, exactly when the quote has observations. */
  lemma ObservationsHeadingShown(q: Quote, io: Inputs)
    ensures Seqs.Count(Rendering(q, io), IsBlock(ObservationsHeading)) == (if q.observations != "" then 1 else 0)
  {
    var b := ObservationsHeading;
    var totals := TotalsPart(q, io, Opening(q, io).pen);
    var observations := ObservationsPart(q, io, totals.pen);
    MarksInLateSections(q, io, b);
    MaterialsMarks(q, io, ServicesPart(q, io).pen, b);
    ObservationsMarks(q, io, totals.pen, b);
    SignaturesMarks(observations.pen, b);
  }

  /** The signature labels are drawn once in the document, as the body's last element, on the document's last page. */
  lemma SignaturesOnLastPage(q: Quote, io: Inputs)
    ensures Seqs.Count(Rendering(q, io), IsBlock(SignatureLabels)) == 1
    ensures var body := Body(q, io);
      |body.blocks| >= 2 && Rendering(q, io)[|body.blocks| - 1] == Placed(body.pen.page, body.pen.y + 5.0, SignatureLabels)
  {
    var b := SignatureLabels;
    var totals := TotalsPart(q, io, Opening(q, io).pen);
    var observations := ObservationsPart(q, io, totals.pen);
    MarksInLateSections(q, io, b);
    MaterialsMarks(q, io, ServicesPart(q, io).pen, b);
    ObservationsMarks(q, io, totals.pen, b);
    SignaturesMarks(observations.pen, b);
    SignaturesLast(q, io);
  }

  lemma SignaturesLast(q: Quote, io: Inputs)
    ensures var body := Body(q, io);
      |body.blocks| >= 2 && Rendering(q, io)[|body.blocks| - 1] == Placed(body.pen.page, body.pen.y + 5.0, SignatureLabels)
  {
    var opening := Opening(q, io);
    var totals := TotalsPart(q, io, opening.pen);
    var observations := ObservationsPart(q, io, totals.pen);
    var before := Then(Then(opening, totals), observations);
    var signatures := SignaturesPart(observations.pen);
    var body := Body(q, io);
    assert body == Then(before, signatures);
    assert body.blocks[|body.blocks| - 1] == signatures.blocks[1];
  }

  /** The file name of a saved quote: `Orcamento_<name with each whitespace run as _>_<ID>.pdf`. */
  function FileName(q: Quote): (name: string)
    ensures "Orcamento_" <= name && |name| >= 15 + |q.id|
    ensures name[|name| - |q.id| - 5..] == "_" + Text.ToUpper(q.id) + ".pdf"
    ensures name[10..|name| - |q.id| - 5] == Text.ReplaceWhitespaceRuns(q.clientName, "_")
  {
    var middle, tail := Text.ReplaceWhitespaceRuns(q.clientName, "_"), "_" + Text.ToUpper(q.id) + ".pdf";
    assert |tail| == |q.id| + 5;
    assert ("Orcamento_" + middle + tail)[10..10 + |middle|] == middle;
    "Orcamento_" + middle + tail
  }

  /**
   * Where the client's name has a run of whitespace between two visible
   * characters, the file name has one "_" in its place and the two sides
   * are treated on their own; a side without whitespace is kept as it is.
   */
  lemma FileNameSplitsAtRun(q: Quote, first: string, run: string, rest: string)
    requires q.clientName == first + run + rest
    requires first == [] || !Text.IsWhitespace(first[|first| - 1])
    requires run != [] && Text.AllIn(run, Text.IsWhitespace)
    requires rest == [] || !Text.IsWhitespace(rest[0])
    ensures FileName(q) == "Orcamento_" + Text.ReplaceWhitespaceRuns(first, "_") + "_"
      + Text.ReplaceWhitespaceRuns(rest, "_") + "_" + Text.ToUpper(q.id) + ".pdf"
  {
    Text.ReplaceWhitespaceRunAround(first, run, rest, "_");
  }

  /** A name of two words with whitespace between them is saved as the two words joined by one "_". */
  lemma FileNameOfTwoWords(q: Quote, first: string, run: string, rest: string)
    requires q.clientName == first + run + rest
    requires first == [] || !Text.IsWhitespace(first[|first| - 1])
    requires run != [] && Text.AllIn(run, Text.IsWhitespace)
    requires rest == [] || !Text.IsWhitespace(rest[0])
    requires Text.NoWhitespace(first) && Text.NoWhitespace(rest)
    ensures FileName(q) == "Orcamento_" + first + "_" + rest + "_" + Text.ToUpper(q.id) + ".pdf"
  {
    FileNameSplitsAtRun(q, first, run, rest);
    Text.NoWhitespaceUnchanged(first, "_");
    Text.NoWhitespaceUnchanged(rest, "_");
  }

  /** Upper-casing never produces whitespace out of a visible character. */
  lemma UpperKeepsVisible(c: char)
    requires !Text.IsWhitespace(c)
    ensures !Text.IsWhitespace(Text.UpperChar(c))
  {
  }

  lemma UpperIdVisible(id: string)
    requires Text.NoWhitespace(id)
    ensures Text.NoWhitespace(Text.ToUpper(id))
  {
    var up := Text.ToUpper(id);
    forall i | 0 <= i < |up|
      ensures !Text.IsWhitespace(up[i])
    {
      UpperKeepsVisible(id[i]);
    }
  }

  lemma FixedPartsVisible()
    ensures Text.NoWhitespace("Orcamento_") && Text.NoWhitespace("_") && Text.NoWhitespace(".pdf")
  {
  }

  /** With an id free of whitespace (as generated ids are) the file name has no whitespace at all. */
  lemma FileNameHasNoWhitespace(q: Quote)
    requires Text.NoWhitespace(q.id)
    ensures Text.NoWhitespace(FileName(q))
  {
    var mid := Text.ReplaceWhitespaceRuns(q.clientName, "_");
    var up := Text.ToUpper(q.id);
    Text.NoWhitespaceLeft(q.clientName, "_");
    UpperIdVisible(q.id);
    FixedPartsVisible();
    Text.NoWhitespaceAppend("Orcamento_", mid);
    Text.NoWhitespaceAppend("Orcamento_" + mid, "_");
    Text.NoWhitespaceAppend("Orcamento_" + mid + "_", up);
    Text.NoWhitespaceAppend("Orcamento_" + mid + "_" + up, ".pdf");
  }


  /** The jsPDF document: its pages, the page drawn on, what is on them, and the name it was saved under. */
  class Doc {
    var pageCount: nat
    var currentPage: nat
    var placed: seq<Placed>
    var savedAs: Option<string>

    /** While the generator draws, the current page is the last one. */
    predicate Drawing()
      reads this
    {
      1 <= currentPage && currentPage == pageCount
    }

    /** `new jsPDF()`: one empty page. */
    constructor ()
      ensures Drawing() && pageCount == 1 && placed == [] && savedAs.None?
    {
      pageCount, currentPage := 1, 1;
      placed := [];
      savedAs := None;
    }

    /** `doc.addPage()`: a new last page, which becomes current. */
    method AddPage()
      modifies this`pageCount, this`currentPage
      ensures pageCount == old(pageCount) + 1 && currentPage == pageCount
    {
      pageCount := pageCount + 1;
      currentPage := pageCount;
    }

    /** `doc.setPage(i)`. */
    method SetPage(i: nat)
      requires 1 <= i <= pageCount
      modifies this`currentPage
      ensures currentPage == i
    {
      currentPage := i;
    }

    /** Draws one element on the current page. */
    method Put(y: real, b: Block)
      modifies this`placed
      ensures placed == old(placed) + [Placed(currentPage, y, b)]
    {
      placed := placed + [Placed(currentPage, y, b)];
    }

    /** `doc.autoTable(...)` from `startY`: the table may run onto new pages; returns `lastAutoTable.finalY`. */
    method AutoTable(startY: real, kind: TableKind, rows: seq<seq<string>>, end: TableEnd) returns (finalY: real)
      requires Drawing()
      modifies this`placed, this`pageCount, this`currentPage
      ensures placed == old(placed) + [Placed(old(currentPage), startY, Table(kind, rows))]
      ensures Drawing() && pageCount == old(pageCount) + end.pagesAdded
      ensures finalY == end.finalY
    {
      placed := placed + [Placed(currentPage, startY, Table(kind, rows))];
      pageCount := pageCount + end.pagesAdded;
      currentPage := pageCount;
      finalY := end.finalY;
    }

    /** `doc.save(name)`. */
    method Save(name: string)
      modifies this`savedAs
      ensures savedAs == Some(name)
    {
      savedAs := Some(name);
    }
  }

  method DrawHeader(doc: Doc, q: Quote, io: Inputs)
    requires doc.Drawing() && doc.pageCount == 1
    modifies doc`placed
    ensures doc.placed == old(doc.placed) + HeaderBlocks(q, io)
  {
    DrawTitle(doc, q, io);
    DrawStatus(doc, q, io);
    DrawClient(doc, q);
  }

  method DrawTitle(doc: Doc, q: Quote, io: Inputs)
    requires doc.currentPage == 1
    modifies doc`placed
    ensures doc.placed == old(doc.placed) + TitleBlocks(q, io)
  {
    doc.Put(Margin, Logo);
    doc.Put(25.0, Title);
    doc.Put(30.0, Subtitle);
    doc.Put(20.0, QuoteNumber("Orçamento #" + Text.ToUpper(q.id)));
    doc.Put(25.0, IssueDate("Emissão: " + io.formatDate(q.date)));
  }

  method DrawStatus(doc: Doc, q: Quote, io: Inputs)
    requires doc.currentPage == 1
    modifies doc`placed
    ensures doc.placed == old(doc.placed) + StatusBlocks(q, io)
  {
    var status := "Status: " + Text.ToUpper(StatusName(q.status));
    if HasValidity(q) {
      doc.Put(30.0, ValidUntilLine("Válido até: " + io.formatDate(q.validUntil.value)));
      doc.Put(35.0, StatusLine(status));
    } else {
      doc.Put(30.0, StatusLine(status));
    }
  }

  method DrawClient(doc: Doc, q: Quote)
    requires doc.currentPage == 1
    modifies doc`placed
    ensures doc.placed == old(doc.placed) + ClientBlocks(q)
  {
    doc.Put(40.0, Divider);
    doc.Put(50.0, ClientHeading);
    doc.Put(58.0, ClientName("Nome: " + q.clientName));
    doc.Put(64.0, ClientPhone("WhatsApp: " + Text.OrElse(q.clientPhone, "Não informado")));
    doc.Put(70.0, ClientAddress("Endereço: " + Text.OrElse(q.address, "Não informado")));
  }

  method DrawMaterials(doc: Doc, q: Quote, io: Inputs, y: real) returns (currentY: real)
    requires doc.Drawing()
    modifies doc`placed, doc`pageCount, doc`currentPage
    ensures doc.Drawing()
    ensures var s := MaterialsPart(q, io, Pen(old(doc.pageCount), y));
      doc.placed == old(doc.placed) + s.blocks && Pen(doc.pageCount, currentY) == s.pen
  {
    currentY := y;
    if |q.materials| > 0 {
      if currentY > PageHeight - 50.0 {
        doc.AddPage();
        currentY := 20.0;
      }
      doc.Put(currentY, MaterialsHeading);
      var finalY := doc.AutoTable(currentY + 5.0, MaterialsTable, MaterialRows(q, io), io.materialsTable);
      currentY := finalY + 10.0;
    }
  }

  method DrawTotals(doc: Doc, q: Quote, io: Inputs, y: real) returns (currentY: real)
    requires doc.Drawing()
    modifies doc`placed, doc`pageCount, doc`currentPage
    ensures doc.Drawing()
    ensures var s := TotalsPart(q, io, Pen(old(doc.pageCount), y));
      doc.placed == old(doc.placed) + s.blocks && Pen(doc.pageCount, currentY) == s.pen
  {
    ghost var before := doc.placed;
    var servicesTotal, materialsTotal, grandTotal := Totals(q);
    ghost var pen := Pen(doc.pageCount, y);
    currentY := BreakPage(doc, y, PageHeight - 70.0, 20.0);
    ghost var top := currentY;
    currentY := DrawTotalRows(doc, q, io, servicesTotal, materialsTotal, currentY);
    ghost var rows := PlaceRows(doc.currentPage, top, TotalRows(q, io));
    currentY := currentY + 10.0;
    DrawGrandTotal(doc, currentY, io.formatCurrency(grandTotal));
    ghost var tail := [Placed(doc.currentPage, currentY - 5.0, TotalRule), Placed(doc.currentPage, currentY, GrandTotal(io.formatCurrency(grandTotal)))];
    assert doc.placed == before + (rows + tail);
    TotalsPartFrom(q, io, pen, doc.currentPage, top);
  }

  /** The rule 5 above the grand total, then the grand total. */
  method DrawGrandTotal(doc: Doc, y: real, amount: string)
    modifies doc`placed
    ensures doc.placed == old(doc.placed) + [Placed(doc.currentPage, y - 5.0, TotalRule), Placed(doc.currentPage, y, GrandTotal(amount))]
  {
    doc.Put(y - 5.0, TotalRule);
    doc.Put(y, GrandTotal(amount));
  }

  /** The three folds of the totals block, as the generator computes them. */
  method Totals(q: Quote) returns (servicesTotal: real, materialsTotal: real, grandTotal: real)
    ensures servicesTotal == Pricing.ServicesSubtotal(q.services)
    ensures materialsTotal == Pricing.MaterialsSubtotal(q.materials)
    ensures grandTotal == Pricing.QuoteTotal(q)
  {
    Pricing.ReduceIsSum(q.services, Pricing.ServiceLine, 0.0);
    Pricing.ReduceIsSum(q.materials, Pricing.MaterialLine, 0.0);
    servicesTotal := Pricing.Reduce(q.services, Pricing.ServiceLine, 0.0);
    materialsTotal := Pricing.Reduce(q.materials, Pricing.MaterialLine, 0.0);
    grandTotal := servicesTotal + materialsTotal + (if q.travelFee == 0.0 then 0.0 else q.travelFee) - q.discount;
  }

  /** `TotalsPart` spelled out once the page break has put the pen at `top` on `page`. */
  lemma TotalsPartFrom(q: Quote, io: Inputs, pen: Pen, page: nat, top: real)
    requires BreakBelow(pen, PageHeight - 70.0, 20.0) == Pen(page, top)
    ensures var last := top + 6.0 * (|TotalRows(q, io)| - 1) as real;
      TotalsPart(q, io, pen) == Section(PlaceRows(page, top, TotalRows(q, io))
        + [Placed(page, last + 5.0, TotalRule), Placed(page, last + 10.0, GrandTotal(io.formatCurrency(Pricing.QuoteTotal(q))))],
        Pen(page, last + 10.0))
  {
  }

  /** `if (currentY > bottom) { doc.addPage(); currentY = top; }` */
  method BreakPage(doc: Doc, y: real, bottom: real, top: real) returns (currentY: real)
    requires doc.Drawing()
    modifies doc`pageCount, doc`currentPage
    ensures doc.Drawing()
    ensures Pen(doc.pageCount, currentY) == BreakBelow(Pen(old(doc.pageCount), y), bottom, top)
  {
    currentY := y;
    if currentY > bottom {
      doc.AddPage();
      currentY := top;
    }
  }

  /** The rows of the totals block from `y` down, one `doc.text` pair per row; returns the last row's height. */
  method DrawTotalRows(doc: Doc, q: Quote, io: Inputs, servicesTotal: real, materialsTotal: real, y: real) returns (currentY: real)
    requires servicesTotal == Pricing.ServicesSubtotal(q.services) && materialsTotal == Pricing.MaterialsSubtotal(q.materials)
    modifies doc`placed
    ensures doc.placed == old(doc.placed) + PlaceRows(doc.currentPage, y, TotalRows(q, io))
    ensures currentY == y + 6.0 * (|TotalRows(q, io)| - 1) as real
  {
    ghost var start := doc.placed;
    ghost var drawn: seq<(string, string)> := [];
    assert doc.placed == start + PlaceRows(doc.currentPage, y, drawn);
    currentY := y;
    PutRow(doc, y, currentY, start, drawn, ("Subtotal Mão de Obra:", io.formatCurrency(servicesTotal)));
    drawn := drawn + [("Subtotal Mão de Obra:", io.formatCurrency(servicesTotal))];
    currentY := currentY + 6.0;
    PutRow(doc, y, currentY, start, drawn, ("Subtotal Materiais:", io.formatCurrency(materialsTotal)));
    drawn := drawn + [("Subtotal Materiais:", io.formatCurrency(materialsTotal))];
    if q.travelFee > 0.0 {
      currentY := currentY + 6.0;
      PutRow(doc, y, currentY, start, drawn, ("Taxa de Deslocamento:", io.formatCurrency(q.travelFee)));
      drawn := drawn + [("Taxa de Deslocamento:", io.formatCurrency(q.travelFee))];
    }
    if q.discount > 0.0 {
      currentY := currentY + 6.0;
      PutRow(doc, y, currentY, start, drawn, ("Desconto:", "- " + io.formatCurrency(q.discount)));
      drawn := drawn + [("Desconto:", "- " + io.formatCurrency(q.discount))];
    }
    assert drawn == TotalRows(q, io);
  }

  /** One row of the totals block, 6 below the rows already drawn from `top`. */
  method PutRow(doc: Doc, top: real, y: real, ghost start: seq<Placed>, ghost drawn: seq<(string, string)>, row: (string, string))
    requires y == top + 6.0 * |drawn| as real
    requires doc.placed == start + PlaceRows(doc.currentPage, top, drawn)
    modifies doc`placed
    ensures doc.placed == start + PlaceRows(doc.currentPage, top, drawn + [row])
  {
    doc.Put(y, TotalRow(row.0, row.1));
    PlaceRowsSnoc(doc.currentPage, top, drawn, row);
  }

  /** `allSplitLines`: each piece of the text wrapped in turn and appended. */
  method WrapObservations(observations: string, wrap: string -> seq<string>) returns (allSplitLines: seq<string>)
    ensures allSplitLines == WrapAll(Text.Split(observations, '\n'), wrap)
  {
    var lines := Text.Split(observations, '\n');
    allSplitLines := [];
    var i := 0;
    while i < |lines|
      invariant 0 <= i <= |lines|
      invariant allSplitLines == WrapAll(lines[..i], wrap)
    {
      WrapAllAppend(lines[..i], [lines[i]], wrap);
      assert lines[..i + 1] == lines[..i] + [lines[i]];
      assert WrapAll([lines[i]], wrap) == wrap(lines[i]) + WrapAll([lines[i]][1..], wrap);
      allSplitLines := allSplitLines + wrap(lines[i]);
      i := i + 1;
    }
    assert lines[..i] == lines;
  }

  method DrawObservations(doc: Doc, q: Quote, io: Inputs, y: real) returns (currentY: real)
    requires doc.Drawing()
    modifies doc`placed, doc`pageCount, doc`currentPage
    ensures doc.Drawing()
    ensures var s := ObservationsPart(q, io, Pen(old(doc.pageCount), y));
      doc.placed == old(doc.placed) + s.blocks && Pen(doc.pageCount, currentY) == s.pen
  {
    currentY := y;
    if q.observations != "" {
      currentY := currentY + 20.0;
      var allSplitLines := WrapObservations(q.observations, io.splitTextToSize);
      var obsBoxHeight := (|allSplitLines| as real * 5.0) + 15.0;
      if currentY + obsBoxHeight > PageHeight - 60.0 {
        doc.AddPage();
        currentY := 20.0;
      }
      doc.Put(currentY, ObservationsHeading);
      doc.Put(currentY + 4.0, ObservationsBox((|allSplitLines| as real * 5.0) + 6.0));
      doc.Put(currentY + 10.0, ObservationsText(allSplitLines));
      currentY := currentY + obsBoxHeight;
    }
  }

  method DrawSignatures(doc: Doc, y: real) returns (currentY: real)
    requires doc.Drawing()
    modifies doc`placed, doc`pageCount, doc`currentPage
    ensures doc.Drawing()
    ensures var s := SignaturesPart(Pen(old(doc.pageCount), y));
      doc.placed == old(doc.placed) + s.blocks && Pen(doc.pageCount, currentY) == s.pen
  {
    currentY := y;
    if currentY > PageHeight - 50.0 {
      doc.AddPage();
      currentY := 40.0;
    } else {
      currentY := PageHeight - 45.0;
    }
    doc.Put(currentY, SignatureLines);
    doc.Put(currentY + 5.0, SignatureLabels);
  }

  /** The footer pass: `for (let i = 1; i <= pageCount; i++)`, stamping page `i`. */
  method StampFooters(doc: Doc)
    requires doc.Drawing()
    modifies doc`placed, doc`currentPage
    ensures doc.pageCount == old(doc.pageCount)
    ensures doc.placed == old(doc.placed) + Footers(doc.pageCount, doc.pageCount)
  {
    var pageCount := doc.pageCount;
    ghost var start := doc.placed;
    for i := 1 to pageCount + 1
      invariant doc.pageCount == pageCount
      invariant doc.placed == start + Footers(i - 1, pageCount)
    {
      doc.SetPage(i);
      doc.Put(PageHeight - 10.0, Footer(FooterText(i, pageCount)));
    }
  }

  /** The header, the services table and the materials on a new document. */
  method DrawOpening(doc: Doc, q: Quote, io: Inputs) returns (currentY: real)
    requires doc.Drawing() && doc.pageCount == 1 && doc.placed == []
    modifies doc`placed, doc`pageCount, doc`currentPage
    ensures doc.Drawing() && doc.placed == Opening(q, io).blocks && Pen(doc.pageCount, currentY) == Opening(q, io).pen
  {
    DrawHeader(doc, q, io);
    var finalY := doc.AutoTable(80.0, ServicesTable, ServiceRows(q, io), io.servicesTable);
    currentY := finalY + 10.0;
    ghost var opening := Then(Section(HeaderBlocks(q, io), Pen(1, 80.0)), ServicesPart(q, io));
    assert doc.placed == opening.blocks && Pen(doc.pageCount, currentY) == opening.pen;
    currentY := DrawMaterials(doc, q, io, currentY);
  }

  /** The totals, the observations and the signatures from `y` on. */
  method DrawClosing(doc: Doc, q: Quote, io: Inputs, y: real) returns (currentY: real)
    requires doc.Drawing() && doc.placed == Opening(q, io).blocks && Pen(doc.pageCount, y) == Opening(q, io).pen
    modifies doc`placed, doc`pageCount, doc`currentPage
    ensures doc.Drawing() && doc.placed == Body(q, io).blocks && doc.pageCount == Body(q, io).pen.page
  {
    ghost var body := Opening(q, io);
    currentY := DrawTotals(doc, q, io, y);
    body := Then(body, TotalsPart(q, io, body.pen));
    assert doc.placed == body.blocks && Pen(doc.pageCount, currentY) == body.pen;
    currentY := DrawObservations(doc, q, io, currentY);
    body := Then(body, ObservationsPart(q, io, body.pen));
    assert doc.placed == body.blocks && Pen(doc.pageCount, currentY) == body.pen;
    currentY := DrawSignatures(doc, currentY);
    body := Then(body, SignaturesPart(body.pen));
    assert body == Body(q, io);
  }

  /**
   * `generateQuotePDF(quote, shouldSave)`: draws the quote and either saves it
   * under its file name and returns nothing, or returns a blob URL.
   */
  method GenerateQuotePdf(q: Quote, shouldSave: bool, io: Inputs) returns (doc: Doc, url: Option<string>)
    ensures fresh(doc)
    ensures doc.placed == Rendering(q, io) && doc.pageCount == Body(q, io).pen.page
    ensures shouldSave ==> url.None? && doc.savedAs == Some(FileName(q))
    ensures !shouldSave ==> url == Some(io.blobUrl) && doc.savedAs.None?
  {
    doc := new Doc();
    var currentY := DrawOpening(doc, q, io);
    currentY := DrawClosing(doc, q, io, currentY);
    StampFooters(doc);
    if shouldSave {
      doc.Save(FileName(q));
      url := None;
    } else {
      url := Some(io.blobUrl);
    }
  }
}

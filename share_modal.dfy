/**
 * The share dialog: its total, the summary text sent to WhatsApp, the
 * e-mail subject, and the plain text for e-mail and the clipboard. Its total
 * leaves the travel fee out. `formatCurrency` and `formatDate` are
 * parameters; `decodeURIComponent` and the browser calls are not modelled.
 */
module ShareModal {
  import opened Types
  import Text
  import Pricing
  import QuoteList
  import Dashboard
  import PdfGenerator

  /** `total`: the two folds minus the discount. */
  function Total(q: Quote): (t: real)
    ensures t == Pricing.QuoteTotal(q) - q.travelFee
  {
    Pricing.ReduceIsSum(q.services, Pricing.ServiceLine, 0.0);
    Pricing.ReduceIsSum(q.materials, Pricing.MaterialLine, 0.0);
    Pricing.Reduce(q.services, Pricing.ServiceLine, 0.0) + Pricing.Reduce(q.materials, Pricing.MaterialLine, 0.0) - q.discount
  }

  /** The dialog shows less than the list and the PDF by exactly the travel fee, and the same as the dashboard's share of the quote. */
  lemma TotalsDifferByTravelFee(q: Quote)
    ensures QuoteList.CalculateQuoteTotal(q) - Total(q) == q.travelFee
    ensures Total(q) == Dashboard.QuoteValue(q)
  {
  }

  const Heading: string := "*Orçamento de Serviços Elétricos - Orça Pro*%0A%0A"
  const ClientLabel: string := "*Cliente:* "
  const DateLabel: string := "%0A*Data:* "
  const PlaceLabel: string := "%0A*Local:* "
  const TotalLabel: string := "%0A%0A*Total:* "
  const Signature: string := "%0A%0A_Gerado por Orça Eletricista Pro_"

  /** `quote.address || 'Não informado'`. */
  function Place(q: Quote): string
  {
    Text.OrElse(q.address, "Não informado")
  }

  /** The summary names the same place as the client block of the PDF. */
  lemma PlaceMatchesPdf(q: Quote, io: PdfGenerator.Inputs)
    ensures PdfGenerator.Placed(1, 70.0, PdfGenerator.ClientAddress("Endereço: " + Place(q))) in PdfGenerator.HeaderBlocks(q, io)
  {
    PdfGenerator.ClientFallbacks(q, io);
    assert "Endereço: " + "Não informado" == "Endereço: Não informado";
  }

  /** `quoteSummary`: WhatsApp markup, with `%0A` for each line break. */
  function Summary(q: Quote, formatCurrency: real -> string, formatDate: string -> string): string
  {
    Heading + ClientLabel + q.clientName + DateLabel + formatDate(q.date)
    + PlaceLabel + Place(q) + TotalLabel + formatCurrency(Total(q)) + Signature
  }

  /**
   * The summary names the client, then the date, then the place ("Não
   * informado" when the quote has no address), then the total, each after
   * the previous one.
   */
  lemma SummaryFieldOrder(q: Quote, formatCurrency: real -> string, formatDate: string -> string)
    ensures var s := Summary(q, formatCurrency, formatDate);
      exists i1, i2, i3, i4 ::
        Text.OccursAt(s, q.clientName, i1) && i1 + |q.clientName| <= i2
        && Text.OccursAt(s, formatDate(q.date), i2) && i2 + |formatDate(q.date)| <= i3
        && Text.OccursAt(s, Place(q), i3) && i3 + |Place(q)| <= i4
        && Text.OccursAt(s, formatCurrency(Total(q)), i4)
  {
    var name, date, place := q.clientName, formatDate(q.date), Place(q);
    var i1 := |Heading + ClientLabel|;
    var i2 := i1 + |name| + |DateLabel|;
    var i3 := i2 + |date| + |PlaceLabel|;
    var i4 := i3 + |place| + |TotalLabel|;
    SummaryFields(q, formatCurrency, formatDate);
  }

  /** Where each field sits in the summary: after the fixed text and the fields before it. */
  lemma SummaryFields(q: Quote, formatCurrency: real -> string, formatDate: string -> string)
    ensures var s := Summary(q, formatCurrency, formatDate);
      var name, date, place := q.clientName, formatDate(q.date), Place(q);
      var i1 := |Heading + ClientLabel|;
      var i2 := i1 + |name| + |DateLabel|;
      var i3 := i2 + |date| + |PlaceLabel|;
      var i4 := i3 + |place| + |TotalLabel|;
      Text.OccursAt(s, name, i1) && Text.OccursAt(s, date, i2)
      && Text.OccursAt(s, place, i3) && Text.OccursAt(s, formatCurrency(Total(q)), i4)
  {
    Text.FourFields(Heading + ClientLabel, q.clientName, DateLabel, formatDate(q.date), PlaceLabel, Place(q),
      TotalLabel, formatCurrency(Total(q)), Signature);
  }

  /** What e-mail and clipboard get before URI decoding: the summary without its asterisks and with real line breaks. */
  function PlainText(summary: string): (r: string)
    ensures '*' !in r
    ensures !Text.Contains(r, "%0A")
  {
    Text.ReplaceAllKeepsAbsent(Text.RemoveAll(summary, '*'), "%0A", "\n", '*');
    Text.NoEscapedNewlineLeft(Text.RemoveAll(summary, '*'));
    Text.ReplaceAll(Text.RemoveAll(summary, '*'), "%0A", "\n")
  }

  /** A text with no markup and no escapes is left as it is. */
  lemma {:induction false} PlainTextKeepsPlain(s: string)
    requires '*' !in s && '%' !in s
    ensures PlainText(s) == s
    decreases |s|
  {
    if s != [] {
      PlainTextKeepsPlain(s[1..]);
      assert Text.RemoveAll(s, '*') == s by {
        Text.RemoveAbsent(s, '*');
      }
      assert Text.RemoveAll(s[1..], '*') == s[1..] by {
        Text.RemoveAbsent(s[1..], '*');
      }
      assert !("%0A" <= s);
      assert [s[0]] + s[1..] == s;
    }
  }

  /** Around a `%0A` line break the plain text has a real line break, and the two sides are converted on their own. */
  lemma PlainTextLineBreak(a: string, b: string)
    ensures PlainText(a + "%0A" + b) == PlainText(a) + "\n" + PlainText(b)
  {
    Text.RemoveAllAppend(a + "%0A", b, '*');
    Text.RemoveAllAppend(a, "%0A", '*');
    Text.RemoveAbsent("%0A", '*');
    Text.ReplaceAround(Text.RemoveAll(a, '*'), Text.RemoveAll(b, '*'));
  }

  /** An asterisk of the markup is dropped and nothing else changes around it. */
  lemma PlainTextDropsMarkup(a: string, b: string)
    ensures PlainText(a + "*" + b) == PlainText(a + b)
  {
    Text.RemoveDropsOne(a, b, '*');
    assert a + "*" + b == a + ['*'] + b;
  }

  const SubjectPrefix: string := "Orçamento Elétrico - "

  /** The e-mail subject: "Orçamento Elétrico - " and the client's name. */
  function EmailSubject(q: Quote): string
  {
    SubjectPrefix + q.clientName
  }

  /** The subject names the client: two quotes get the same subject exactly when their clients have the same name. */
  lemma EmailSubjectIdentifiesClient(q1: Quote, q2: Quote)
    ensures SubjectPrefix <= EmailSubject(q1)
    ensures EmailSubject(q1) == EmailSubject(q2) <==> q1.clientName == q2.clientName
  {
    assert EmailSubject(q1)[|SubjectPrefix|..] == q1.clientName;
    assert EmailSubject(q2)[|SubjectPrefix|..] == q2.clientName;
  }

  const WhatsAppPrefix: string := "https://api.whatsapp.com/send?text="

  /** The WhatsApp link: the send URL with the summary as its text. */
  function WhatsAppUrl(summary: string): string
  {
    WhatsAppPrefix + summary
  }

  /** Whatever the summary holds at some position, the WhatsApp link holds right after the send URL. */
  lemma WhatsAppCarriesSummary(summary: string, x: string, i: int)
    requires Text.OccursAt(summary, x, i)
    ensures WhatsAppPrefix <= WhatsAppUrl(summary)
    ensures Text.OccursAt(WhatsAppUrl(summary), x, |WhatsAppPrefix| + i)
  {
    Text.OccursShift(WhatsAppPrefix, summary, x, i);
  }

  /**
   * The WhatsApp link names the client, then the date, then the place, then
   * the total, each after the previous one.
   */
  lemma WhatsAppFieldOrder(q: Quote, formatCurrency: real -> string, formatDate: string -> string)
    ensures var url := WhatsAppUrl(Summary(q, formatCurrency, formatDate));
      exists i1, i2, i3, i4 ::
        Text.OccursAt(url, q.clientName, i1) && i1 + |q.clientName| <= i2
        && Text.OccursAt(url, formatDate(q.date), i2) && i2 + |formatDate(q.date)| <= i3
        && Text.OccursAt(url, Place(q), i3) && i3 + |Place(q)| <= i4
        && Text.OccursAt(url, formatCurrency(Total(q)), i4)
  {
    var s := Summary(q, formatCurrency, formatDate);
    var name, date, place := q.clientName, formatDate(q.date), Place(q);
    var i1 := |Heading + ClientLabel|;
    var i2 := i1 + |name| + |DateLabel|;
    var i3 := i2 + |date| + |PlaceLabel|;
    var i4 := i3 + |place| + |TotalLabel|;
    SummaryFields(q, formatCurrency, formatDate);
    var p := |WhatsAppPrefix|;
    WhatsAppCarriesSummary(s, name, i1);
    WhatsAppCarriesSummary(s, date, i2);
    WhatsAppCarriesSummary(s, place, i3);
    WhatsAppCarriesSummary(s, formatCurrency(Total(q)), i4);
    assert Text.OccursAt(WhatsAppUrl(s), name, p + i1) && p + i1 + |name| <= p + i2;
  }

  /** The dialog's one state field: whether the text was just copied. */
  class ShareModalState {
    var copied: bool

    constructor ()
      ensures !copied
    {
      copied := false;
    }

    /** `handleCopy`: the plain text goes to the clipboard and the flag is raised. */
    method HandleCopy(q: Quote, formatCurrency: real -> string, formatDate: string -> string) returns (clipboard: string)
      modifies this
      ensures copied
      ensures clipboard == PlainText(Summary(q, formatCurrency, formatDate))
    {
      clipboard := PlainText(Summary(q, formatCurrency, formatDate));
      copied := true;
    }

    /** The timer set by `handleCopy` lowers the flag again. */
    method CopyTimerElapsed()
      modifies this
      ensures !copied
    {
      copied := false;
    }
  }
}

/**
 * The list of saved quotes: its total column, its search filter, the status
 * buttons, and the state behind the PDF preview modal and the download
 * button. Generating a PDF is asynchronous in the program; here each call is
 * one step whose outcome is a parameter.
 */
module QuoteList {
  import opened Types
  import Seqs
  import Text
  import Pricing
  import QuoteForm

  /** `calculateQuoteTotal`, run as the program does: two left folds, then `(travelFee || 0)` and the discount. */
  function CalculateQuoteTotal(q: Quote): (t: real)
    ensures t == Pricing.QuoteTotal(q)
  {
    Pricing.ReduceIsSum(q.services, Pricing.ServiceLine, 0.0);
    Pricing.ReduceIsSum(q.materials, Pricing.MaterialLine, 0.0);
    var sTotal := Pricing.Reduce(q.services, Pricing.ServiceLine, 0.0);
    var mTotal := Pricing.Reduce(q.materials, Pricing.MaterialLine, 0.0);
    sTotal + mTotal + (if q.travelFee == 0.0 then 0.0 else q.travelFee) - q.discount
  }

  /** The list shows, for a quote just saved, the total the form displayed before saving. */
  lemma ListTotalMatchesForm(f: QuoteForm.QuoteFormState, freshId: string, now: string)
    requires f.clientName != ""
    ensures f.HandleSave(freshId, now).Some?
    ensures CalculateQuoteTotal(f.HandleSave(freshId, now).value) == f.CalculateTotal()
  {
  }

  /** A quote is listed when its client name or its address contains the filter, case-insensitively. */
  predicate Matches(q: Quote, filter: string)
  {
    Text.Contains(Text.ToLower(q.clientName), Text.ToLower(filter))
    || Text.Contains(Text.ToLower(q.address), Text.ToLower(filter))
  }

  /** `filtered`: a quote of the collection is listed exactly when it matches. */
  function Filtered(quotes: seq<Quote>, filter: string): (r: seq<Quote>)
    ensures |r| <= |quotes|
    ensures forall k :: 0 <= k < |r| ==> r[k] in quotes && Matches(r[k], filter)
    ensures forall k :: 0 <= k < |quotes| ==> (quotes[k] in r <==> Matches(quotes[k], filter))
  {
    Seqs.Filter(quotes, (q: Quote) => Matches(q, filter))
  }

  /** The listed quotes keep their order in the collection, and an empty filter lists them all. */
  lemma FilteredKeepsOrder(quotes: seq<Quote>, filter: string)
    ensures Seqs.IsSubsequence(Filtered(quotes, filter), quotes)
    ensures filter == "" ==> Filtered(quotes, filter) == quotes
  {
    Seqs.FilterIsSubsequence(quotes, (q: Quote) => Matches(q, filter));
    Seqs.FilterKeepsAll(quotes, (q: Quote) => Matches(q, filter));
  }

  /** `quote.address || 'Sem endereço informado'`. */
  function AddressText(q: Quote): string
  {
    Text.OrElse(q.address, "Sem endereço informado")
  }

  /** The three status buttons of a row, in order: pending, approved, cancelled. */
  const StatusButtons: seq<Status> := [Pending, Approved, Cancelled]

  /** The list's buttons never mark a quote completed; every other status can be set. */
  lemma StatusButtonsNeverComplete()
    ensures Completed !in StatusButtons
    ensures forall s: Status :: s != Completed ==> s in StatusButtons
  {
  }

  /** A blob URL as `URL.createObjectURL` makes it. */
  type Url = string

  /** What `generateQuotePDF(quote, false)` came to: a URL (or nothing), or an exception. */
  datatype PreviewOutcome = Generated(url: Option<Url>) | Failed
  {
    /** `if (url)`: a URL came back and it is not the empty string. */
    predicate MadeUrl()
    {
      Generated? && url.Some? && url.value != ""
    }
  }

  /** The list's state: filter text, preview modal, share modal, download flag, and the blob URLs made and revoked. */
  class QuoteListState {
    var filter: string
    var selectedPreviewQuote: Option<Quote>
    var previewPdfUrl: Option<Url>
    var selectedShareQuote: Option<Quote>
    var isGenerating: Option<string>
    var created: set<Url>
    var revoked: set<Url>

    /** The blob URLs made and not yet revoked. */
    function Live(): set<Url>
      reads this
    {
      created - revoked
    }

    /**
     * Once the cleanup effect has run: a URL is held only while a quote is
     * selected, and the held URL is the only one not yet revoked.
     */
    predicate Valid()
      reads this
    {
      revoked <= created
      && (previewPdfUrl.Some? ==> selectedPreviewQuote.Some?)
      && Live() == (if previewPdfUrl.Some? then {previewPdfUrl.value} else {})
    }

    constructor ()
      ensures Valid()
      ensures filter == "" && selectedPreviewQuote.None? && previewPdfUrl.None?
      ensures selectedShareQuote.None? && isGenerating.None?
      ensures created == {} && revoked == {}
    {
      filter := "";
      selectedPreviewQuote, previewPdfUrl := None, None;
      selectedShareQuote := None;
      isGenerating := None;
      created, revoked := {}, {};
    }

    method SetFilter(v: string)
      modifies this`filter
      ensures filter == v
    {
      filter := v;
    }

    /** The effect run after every change of the selection or the URL: with no quote selected, a held URL is revoked and dropped. */
    method CleanupEffect()
      modifies this`previewPdfUrl, this`revoked
      ensures old(selectedPreviewQuote.None? && previewPdfUrl.Some?) ==>
        revoked == old(revoked) + {old(previewPdfUrl.value)} && previewPdfUrl.None?
      ensures !old(selectedPreviewQuote.None? && previewPdfUrl.Some?) ==>
        revoked == old(revoked) && previewPdfUrl == old(previewPdfUrl)
    {
      if selectedPreviewQuote.None? && previewPdfUrl.Some? {
        revoked := revoked + {previewPdfUrl.value};
        previewPdfUrl := None;
      }
    }

    /**
     * "Ver": select the quote and clear the URL, then generate. A URL is kept
     * when one comes back; a failure deselects the quote. The list is covered
     * by the modal while a quote is selected, so no preview is open on entry.
     */
    method HandleOpenPreview(q: Quote, outcome: PreviewOutcome)
      requires Valid() && selectedPreviewQuote.None?
      requires outcome.MadeUrl() ==> outcome.url.value !in created
      modifies this`selectedPreviewQuote, this`previewPdfUrl, this`created, this`revoked
      ensures Valid() && revoked == old(revoked)
      ensures outcome.Failed? ==> selectedPreviewQuote.None? && previewPdfUrl.None? && created == old(created)
      ensures outcome.Generated? ==> selectedPreviewQuote == Some(q)
      ensures outcome.MadeUrl() ==> previewPdfUrl == outcome.url && created == old(created) + {outcome.url.value}
      ensures !outcome.MadeUrl() ==> previewPdfUrl.None? && created == old(created)
    {
      selectedPreviewQuote := Some(q);
      previewPdfUrl := None;
      match outcome {
        case Generated(url) =>
          if outcome.MadeUrl() {
            created := created + {url.value};
            previewPdfUrl := url;
          }
        case Failed =>
          selectedPreviewQuote := None;
      }
      CleanupEffect();
    }

    /** Closing the modal deselects the quote; the effect then revokes its URL, so no blob URL stays alive. */
    method ClosePreview()
      requires Valid()
      modifies this`selectedPreviewQuote, this`previewPdfUrl, this`revoked
      ensures Valid() && selectedPreviewQuote.None? && previewPdfUrl.None? && Live() == {}
      ensures old(previewPdfUrl).Some? ==> revoked == old(revoked) + {old(previewPdfUrl).value}
      ensures old(previewPdfUrl).None? ==> revoked == old(revoked)
    {
      selectedPreviewQuote := None;
      CleanupEffect();
    }

    /** The "PDF" button of a row is disabled while that quote's file is being generated. */
    function DownloadDisabled(id: string): (b: bool)
      reads this
      ensures b <==> isGenerating == Some(id)
    {
      isGenerating == Some(id)
    }

    /** `handleDownloadPDF` up to the `await`: the flag names the quote. */
    method StartDownload(q: Quote)
      modifies this`isGenerating
      ensures isGenerating == Some(q.id) && DownloadDisabled(q.id)
    {
      isGenerating := Some(q.id);
    }

    /** The `finally` of `handleDownloadPDF`: the flag is cleared whether the file was saved or not; a failure raises an alert. */
    method FinishDownload(failed: bool) returns (alert: bool)
      modifies this`isGenerating
      ensures isGenerating.None? && alert == failed
      ensures forall id :: !DownloadDisabled(id)
    {
      isGenerating := None;
      alert := failed;
    }

    method OpenShare(q: Quote)
      modifies this`selectedShareQuote
      ensures selectedShareQuote == Some(q)
    {
      selectedShareQuote := Some(q);
    }

    method CloseShare()
      modifies this`selectedShareQuote
      ensures selectedShareQuote.None?
    {
      selectedShareQuote := None;
    }
  }

  /** Any succession of opening and closing previews leaves every blob URL revoked once the modal is closed. */
  method PreviewSession(list: QuoteListState, quotes: seq<Quote>, outcomes: seq<PreviewOutcome>)
    requires list.Valid() && list.selectedPreviewQuote.None? && |quotes| == |outcomes|
    requires forall i, j :: 0 <= i < j < |outcomes| && outcomes[i].MadeUrl() && outcomes[j].MadeUrl() ==>
      outcomes[i].url.value != outcomes[j].url.value
    requires forall i :: 0 <= i < |outcomes| && outcomes[i].MadeUrl() ==> outcomes[i].url.value !in list.created
    modifies list
    ensures list.Valid() && list.Live() == {} && list.selectedPreviewQuote.None?
  {
    list.ClosePreview();
    var i := 0;
    while i < |quotes|
      invariant 0 <= i <= |quotes|
      invariant list.Valid() && list.selectedPreviewQuote.None? && list.Live() == {}
      invariant forall k :: i <= k < |outcomes| && outcomes[k].MadeUrl() ==> outcomes[k].url.value !in list.created
    {
      list.HandleOpenPreview(quotes[i], outcomes[i]);
      list.ClosePreview();
      i := i + 1;
    }
  }
}

/**
 * The dashboard's figures: the billed total over every saved quote, the
 * pending and approved counts, the chart values and the recent list. Its
 * total leaves the travel fee out, unlike the form, the list and the PDF.
 */
module Dashboard {
  import opened Types
  import Seqs
  import Pricing
  import QuoteList

  /** One quote's share of `totalValue`: its two folds minus the discount, without the travel fee. */
  function QuoteValue(q: Quote): (v: real)
    ensures v == QuoteList.CalculateQuoteTotal(q) - q.travelFee
  {
    Pricing.ReduceIsSum(q.services, Pricing.ServiceLine, 0.0);
    Pricing.ReduceIsSum(q.materials, Pricing.MaterialLine, 0.0);
    Pricing.Reduce(q.services, Pricing.ServiceLine, 0.0) + Pricing.Reduce(q.materials, Pricing.MaterialLine, 0.0) - q.discount
  }

  /** `totalValue`: the outer fold over the collection, as the program runs it. */
  function TotalValue(quotes: seq<Quote>): (t: real)
    ensures t == Pricing.Sum(quotes, QuoteValue)
  {
    Pricing.ReduceIsSum(quotes, QuoteValue, 0.0);
    Pricing.Reduce(quotes, QuoteValue, 0.0)
  }

  function TravelFee(q: Quote): real
  {
    q.travelFee
  }

  /** The dashboard's total is the sum of the quotes' full totals less the sum of their travel fees. */
  lemma {:induction false} TotalValueExcludesTravelFees(quotes: seq<Quote>)
    ensures TotalValue(quotes) == Pricing.Sum(quotes, Pricing.QuoteTotal) - Pricing.Sum(quotes, TravelFee)
  {
    if quotes != [] {
      TotalValueExcludesTravelFees(quotes[1..]);
    }
  }

  /** With no quotes the total is 0. */
  lemma EmptyTotalValue()
    ensures TotalValue([]) == 0.0
  {
  }

  /** No status is filtered out: changing a quote's status, to cancelled or any other, leaves the total as it was. */
  lemma TotalValueIgnoresStatus(quotes: seq<Quote>, i: nat, s: Status)
    requires i < |quotes|
    ensures TotalValue(quotes[i := quotes[i].(status := s)]) == TotalValue(quotes)
  {
    Pricing.SumUpdate(quotes, i, quotes[i].(status := s), QuoteValue);
  }

  function HasStatus(s: Status): Quote -> bool
  {
    (q: Quote) => q.status == s
  }

  /** `pendingQuotes`. */
  function PendingQuotes(quotes: seq<Quote>): (r: seq<Quote>)
    ensures forall k :: 0 <= k < |r| ==> r[k] in quotes && r[k].status == Pending
    ensures forall k :: 0 <= k < |quotes| && quotes[k].status == Pending ==> quotes[k] in r
    ensures |r| == Seqs.Count(quotes, HasStatus(Pending))
    ensures Seqs.IsSubsequence(r, quotes)
  {
    Seqs.CountIsFilterLength(quotes, HasStatus(Pending));
    Seqs.FilterIsSubsequence(quotes, HasStatus(Pending));
    Seqs.Filter(quotes, HasStatus(Pending))
  }

  /** `approvedQuotes`. */
  function ApprovedQuotes(quotes: seq<Quote>): (r: seq<Quote>)
    ensures forall k :: 0 <= k < |r| ==> r[k] in quotes && r[k].status == Approved
    ensures forall k :: 0 <= k < |quotes| && quotes[k].status == Approved ==> quotes[k] in r
    ensures |r| == Seqs.Count(quotes, HasStatus(Approved))
    ensures Seqs.IsSubsequence(r, quotes)
  {
    Seqs.CountIsFilterLength(quotes, HasStatus(Approved));
    Seqs.FilterIsSubsequence(quotes, HasStatus(Approved));
    Seqs.Filter(quotes, HasStatus(Approved))
  }

  /** No quote is both pending and approved, so the two counts together never exceed the number of quotes. */
  lemma StatusCountsBounded(quotes: seq<Quote>)
    ensures |PendingQuotes(quotes)| + |ApprovedQuotes(quotes)| <= |quotes|
  {
    Seqs.DisjointFiltersBounded(quotes, HasStatus(Pending), HasStatus(Approved));
  }

  /** The third bar of the chart: the total when it is positive, otherwise the placeholder 1200. */
  function ChartValue(totalValue: real): (v: real)
    ensures v > 0.0
    ensures totalValue > 0.0 ==> v == totalValue
    ensures totalValue <= 0.0 ==> v == 1200.0
  {
    if totalValue > 0.0 then totalValue else 1200.0
  }

  /** The three bars, January and February being fixed placeholder figures. */
  function ChartValues(quotes: seq<Quote>): (bars: seq<real>)
    ensures |bars| == 3 && bars[0] == 4500.0 && bars[1] == 3200.0
    ensures forall k :: 0 <= k < 3 ==> bars[k] > 0.0
  {
    [4500.0, 3200.0, ChartValue(TotalValue(quotes))]
  }

  /** `quotes.slice(0, 5)`: the first five quotes, or all of them when there are fewer. */
  function Recent(quotes: seq<Quote>): (r: seq<Quote>)
    ensures |r| == (if |quotes| < 5 then |quotes| else 5)
    ensures r <= quotes
  {
    if |quotes| < 5 then quotes else quotes[..5]
  }

  /** A quote just added by the form, which goes to the front of the collection, is always among the recent ones. */
  lemma NewestIsRecent(q: Quote, quotes: seq<Quote>)
    ensures Recent([q] + quotes)[0] == q
  {
    assert [q] + quotes != [];
  }
}

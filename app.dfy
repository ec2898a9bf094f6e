/**
 * The application shell: the state holding every quote and the active tab,
 * the three collection updates handed to the screens, the navigation, and
 * the choice of screen for the active tab. Reading and writing the state in
 * the browser's storage is not modelled; a saved state arrives as an option.
 */
module App {
  import opened Types
  import Seqs

  /** `addQuote`: the new quote goes first, and the list of quotes is shown. */
  function AddQuote(state: AppState, q: Quote): (r: AppState)
    ensures |r.quotes| == |state.quotes| + 1
    ensures r.quotes[0] == q && r.quotes[1..] == state.quotes
    ensures r.activeTab == QuotesTab
  {
    AppState([q] + state.quotes, QuotesTab)
  }

  function HasOtherId(id: string): Quote -> bool
  {
    (q: Quote) => q.id != id
  }

  /** `deleteQuote`: every quote with the id goes, every other stays; the tab is not touched. */
  function DeleteQuote(state: AppState, id: string): (r: AppState)
    ensures r.activeTab == state.activeTab
    ensures |r.quotes| <= |state.quotes|
    ensures forall k :: 0 <= k < |r.quotes| ==> r.quotes[k].id != id && r.quotes[k] in state.quotes
    ensures forall k :: 0 <= k < |state.quotes| && state.quotes[k].id != id ==> state.quotes[k] in r.quotes
  {
    state.(quotes := Seqs.Filter(state.quotes, HasOtherId(id)))
  }

  /** The quotes kept are in their original order, and deleting an id no quote has changes nothing. */
  lemma DeleteQuoteKeepsOrder(state: AppState, id: string)
    ensures Seqs.IsSubsequence(DeleteQuote(state, id).quotes, state.quotes)
    ensures (forall k :: 0 <= k < |state.quotes| ==> state.quotes[k].id != id) ==> DeleteQuote(state, id) == state
  {
    Seqs.FilterIsSubsequence(state.quotes, HasOtherId(id));
    Seqs.FilterKeepsAll(state.quotes, HasOtherId(id));
  }

  /** Deleting removes exactly the quotes that carry the id. */
  lemma DeleteQuoteCount(state: AppState, id: string)
    ensures |DeleteQuote(state, id).quotes| + Seqs.Count(state.quotes, (q: Quote) => q.id == id) == |state.quotes|
  {
    Seqs.CountComplement(state.quotes, (q: Quote) => q.id == id, HasOtherId(id));
  }

  /** `updateQuoteStatus`: the quotes with the id get the new status; nothing else changes. */
  function UpdateQuoteStatus(state: AppState, id: string, status: Status): (r: AppState)
    ensures r.activeTab == state.activeTab && |r.quotes| == |state.quotes|
    ensures forall k :: 0 <= k < |r.quotes| ==>
      r.quotes[k] == (if state.quotes[k].id == id then state.quotes[k].(status := status) else state.quotes[k])
  {
    state.(quotes := Seqs.Map(state.quotes, (q: Quote) => if q.id == id then q.(status := status) else q))
  }

  /** Only the status field can differ, and setting the same status twice is setting it once. */
  lemma UpdateQuoteStatusOnlyStatus(state: AppState, id: string, status: Status)
    ensures var r := UpdateQuoteStatus(state, id, status);
      forall k :: 0 <= k < |r.quotes| ==> r.quotes[k].(status := state.quotes[k].status) == state.quotes[k]
    ensures UpdateQuoteStatus(UpdateQuoteStatus(state, id, status), id, status) == UpdateQuoteStatus(state, id, status)
  {
    var r := UpdateQuoteStatus(state, id, status);
    var rr := UpdateQuoteStatus(r, id, status);
    assert forall k :: 0 <= k < |rr.quotes| ==> rr.quotes[k] == r.quotes[k];
  }

  /** The state on start: the saved one when there is one, otherwise no quotes on the dashboard. */
  function InitialState(saved: Option<AppState>): (s: AppState)
    ensures saved.None? ==> s.quotes == [] && s.activeTab == DashboardTab
    ensures saved.Some? ==> s == saved.value
  {
    if saved.Some? then saved.value else AppState([], DashboardTab)
  }

  /** A navigation handler: the tab changes, the quotes do not. */
  function Navigate(state: AppState, tab: Tab): (r: AppState)
    ensures r.quotes == state.quotes && r.activeTab == tab
  {
    state.(activeTab := tab)
  }

  /** The sidebar's entries, in order. */
  const MenuItems: seq<Tab> := [DashboardTab, QuotesTab, NewQuoteTab, CatalogTab]

  /** Every tab has exactly one entry in the sidebar. */
  lemma MenuListsEveryTabOnce(t: Tab)
    ensures Seqs.Count(MenuItems, (u: Tab) => u == t) == 1
  {
    assert MenuItems[1..] == [QuotesTab, NewQuoteTab, CatalogTab];
    assert MenuItems[2..] == [NewQuoteTab, CatalogTab];
    assert MenuItems[3..] == [CatalogTab];
  }

  datatype Screen = DashboardScreen | QuoteListScreen | QuoteFormScreen | CatalogScreen

  /** The screen each tab stands for. */
  function ScreenOf(t: Tab): Screen
  {
    match t
    case DashboardTab => DashboardScreen
    case QuotesTab => QuoteListScreen
    case NewQuoteTab => QuoteFormScreen
    case CatalogTab => CatalogScreen
  }

  /** `renderContent`, on the tab's stored string: one screen per known tab, the dashboard for anything else. */
  function RenderContent(activeTab: string): (s: Screen)
    ensures forall t: Tab :: activeTab == TabId(t) ==> s == ScreenOf(t)
    ensures (forall t: Tab :: activeTab != TabId(t)) ==> s == DashboardScreen
  {
    match activeTab
    case "dashboard" => DashboardScreen
    case "quotes" => assert activeTab == TabId(QuotesTab); QuoteListScreen
    case "new-quote" => assert activeTab == TabId(NewQuoteTab); QuoteFormScreen
    case "catalog" => assert activeTab == TabId(CatalogTab); CatalogScreen
    case _ => DashboardScreen
  }

  /** The floating "new quote" button shows on every tab but the form's. */
  function ShowsNewQuoteButton(state: AppState): (b: bool)
    ensures b <==> state.activeTab != NewQuoteTab
  {
    TabId(state.activeTab) != "new-quote"
  }

  /** The application's one state field, replaced on every transition. */
  class AppController {
    var state: AppState

    constructor (saved: Option<AppState>)
      ensures state == InitialState(saved)
    {
      state := InitialState(saved);
    }

    /** The form's `onSave`. */
    method OnSave(q: Quote)
      modifies this
      ensures state == AddQuote(old(state), q)
    {
      state := AddQuote(state, q);
    }

    /** The list's `onDelete`. */
    method OnDelete(id: string)
      modifies this
      ensures state == DeleteQuote(old(state), id)
    {
      state := DeleteQuote(state, id);
    }

    /** The list's `onUpdateStatus`. */
    method OnUpdateStatus(id: string, status: Status)
      modifies this
      ensures state == UpdateQuoteStatus(old(state), id, status)
    {
      state := UpdateQuoteStatus(state, id, status);
    }

    /** A sidebar entry, the dashboard's "new quote", the form's cancel or the floating button. */
    method SetActiveTab(tab: Tab)
      modifies this
      ensures state == Navigate(old(state), tab)
    {
      state := Navigate(state, tab);
    }
  }
}

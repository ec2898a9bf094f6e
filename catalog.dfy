/**
 * The reference price catalogue screen: the per-category counts shown on the
 * category buttons and the list filtered by category and search text.
 */
module Catalog {
  import opened Types
  import Seqs
  import Text
  import ServicesData

  /** The rows of category `c`. */
  function InCategory(c: ServiceCategory): ServiceDefinition -> bool
  {
    (s: ServiceDefinition) => s.category == c
  }

  /** `categoryCounts[cat] || 0`: a category the map does not hold shows 0. */
  function DisplayCount(counts: map<ServiceCategory, nat>, c: ServiceCategory): nat
  {
    if c in counts then counts[c] else 0
  }

  /**
   * `categoryCounts`: one pass over the catalogue (`SERVICES_DB`) incrementing the entry of
   * each row's category. The program keys the map by the category's label;
   * labels are distinct, so keying by the category is the same map.
   */
  method CategoryCounts(db: seq<ServiceDefinition>) returns (counts: map<ServiceCategory, nat>)
    ensures forall c: ServiceCategory :: DisplayCount(counts, c) == Seqs.Count(db, InCategory(c))
    ensures forall c :: c in counts ==> counts[c] > 0
  {
    counts := map[];
    var i := 0;
    while i < |db|
      invariant 0 <= i <= |db|
      invariant forall c: ServiceCategory :: DisplayCount(counts, c) == Seqs.Count(db[..i], InCategory(c))
      invariant forall c :: c in counts ==> counts[c] > 0
    {
      var cat := db[i].category;
      counts := counts[cat := DisplayCount(counts, cat) + 1];
      forall c: ServiceCategory
        ensures Seqs.Count(db[..i + 1], InCategory(c)) == Seqs.Count(db[..i], InCategory(c)) + (if c == cat then 1 else 0)
      {
        assert db[..i + 1] == db[..i] + [db[i]];
        Seqs.CountAppend(db[..i], [db[i]], InCategory(c));
      }
      i := i + 1;
    }
    assert db[..i] == db;
  }

  /** The category `d` itself. */
  function IsCategory(d: ServiceCategory): ServiceCategory -> bool
  {
    (c: ServiceCategory) => c == d
  }

  /** The counts of the categories in `cats`, added up. */
  function TotalOver(db: seq<ServiceDefinition>, cats: seq<ServiceCategory>): nat
  {
    if cats == [] then 0 else Seqs.Count(db, InCategory(cats[0])) + TotalOver(db, cats[1..])
  }

  /** Adding one row adds one to the total for every time its category is listed. */
  lemma {:induction false} TotalOverCons(x: ServiceDefinition, rest: seq<ServiceDefinition>, cats: seq<ServiceCategory>)
    ensures TotalOver([x] + rest, cats) == TotalOver(rest, cats) + Seqs.Count(cats, IsCategory(x.category))
  {
    if cats != [] {
      TotalOverCons(x, rest, cats[1..]);
      assert ([x] + rest)[1..] == rest;
    }
  }

  lemma {:induction false} TotalOverEmpty(cats: seq<ServiceCategory>)
    ensures TotalOver([], cats) == 0
  {
    if cats != [] {
      TotalOverEmpty(cats[1..]);
    }
  }

  /** Each category occurs once in the enumeration. */
  lemma OccursOnce(d: ServiceCategory)
    ensures Seqs.Count(AllCategories, IsCategory(d)) == 1
  {
    var a, k := AllCategories, CategoryIndex(d);
    AllCategoriesEnumerates();
    assert forall i :: 0 <= i < |a| && i != k ==> a[i] != a[k];
    Seqs.CountExactlyOne(a, IsCategory(d), k);
  }

  /** The category counts add up to the number of rows: every row is counted once. */
  lemma {:induction false} CountsSumToTotal(db: seq<ServiceDefinition>)
    ensures TotalOver(db, AllCategories) == |db|
  {
    if db == [] {
      TotalOverEmpty(AllCategories);
    } else {
      CountsSumToTotal(db[1..]);
      assert db == [db[0]] + db[1..];
      TotalOverCons(db[0], db[1..], AllCategories);
      OccursOnce(db[0].category);
    }
  }

  /** The catalogue's counts: every category shows a positive count, and the eight counts add up to the catalogue's 41 rows. */
  lemma CatalogueCounts(c: ServiceCategory)
    ensures Seqs.Count(ServicesData.SERVICES_DB, InCategory(c)) > 0
    ensures TotalOver(ServicesData.SERVICES_DB, AllCategories) == |ServicesData.SERVICES_DB| == 41
  {
    Seqs.CountWitness(ServicesData.SERVICES_DB, InCategory(c), ServicesData.FirstOfCategory(c));
    CountsSumToTotal(ServicesData.SERVICES_DB);
    ServicesData.ServicesWellFormed();
  }

  /** The category selector: "Todas as Categorias" or one category. */
  datatype CategoryFilter = All | Only(category: ServiceCategory)

  /** A row is listed when its category passes the selector and its description, category label or id contains the lower-cased search. */
  predicate Listed(s: ServiceDefinition, active: CategoryFilter, search: string)
  {
    var searchLower := Text.ToLower(search);
    (active.All? || s.category == active.category)
    && (Text.Contains(Text.ToLower(s.description), searchLower)
        || Text.Contains(Text.ToLower(CategoryLabel(s.category)), searchLower)
        || Text.Contains(Text.ToLower(s.id), searchLower))
  }

  /** `filtered`: the listed rows, in catalogue order. */
  function Filtered(active: CategoryFilter, search: string): (r: seq<ServiceDefinition>)
    ensures forall k :: 0 <= k < |r| ==> r[k] in ServicesData.SERVICES_DB && Listed(r[k], active, search)
    ensures forall k :: 0 <= k < |ServicesData.SERVICES_DB| && Listed(ServicesData.SERVICES_DB[k], active, search) ==>
      ServicesData.SERVICES_DB[k] in r
    ensures active.Only? ==> forall k :: 0 <= k < |r| ==> r[k].category == active.category
  {
    Seqs.Filter(ServicesData.SERVICES_DB, (s: ServiceDefinition) => Listed(s, active, search))
  }

  /** The list keeps catalogue order; with every category and an empty search it is the whole catalogue. */
  lemma FilteredKeepsOrder(active: CategoryFilter, search: string)
    ensures Seqs.IsSubsequence(Filtered(active, search), ServicesData.SERVICES_DB)
    ensures active.All? && search == "" ==> Filtered(active, search) == ServicesData.SERVICES_DB
  {
    Seqs.FilterIsSubsequence(ServicesData.SERVICES_DB, (s: ServiceDefinition) => Listed(s, active, search));
    Seqs.FilterKeepsAll(ServicesData.SERVICES_DB, (s: ServiceDefinition) => Listed(s, active, search));
  }

  /** With one category selected and an empty search, the list is as long as that category's button count says. */
  lemma CategoryListMatchesCount(c: ServiceCategory)
    ensures |Filtered(Only(c), "")| == Seqs.Count(ServicesData.SERVICES_DB, InCategory(c))
  {
    var db := ServicesData.SERVICES_DB;
    forall i | 0 <= i < |db|
      ensures Listed(db[i], Only(c), "") == InCategory(c)(db[i])
    {
      ListedWithoutSearch(db[i], c);
    }
    SameFilter(db, (s: ServiceDefinition) => Listed(s, Only(c), ""), InCategory(c));
    Seqs.CountIsFilterLength(db, InCategory(c));
  }

  /** With no search, a row is listed under a category exactly when it belongs to it. */
  lemma ListedWithoutSearch(s: ServiceDefinition, c: ServiceCategory)
    ensures Listed(s, Only(c), "") == (s.category == c)
  {
    assert Text.ToLower("") == "";
    assert Text.Contains(Text.ToLower(s.description), "");
  }

  /** Two predicates that agree on every element filter alike. */
  lemma {:induction false} SameFilter(s: seq<ServiceDefinition>, p: ServiceDefinition -> bool, q: ServiceDefinition -> bool)
    requires forall i :: 0 <= i < |s| ==> p(s[i]) == q(s[i])
    ensures Seqs.Filter(s, p) == Seqs.Filter(s, q)
  {
    if s != [] {
      SameFilter(s[1..], p, q);
    }
  }
}

/**
 * The materials table of `src/pages/Materials.tsx`: the search box and tab
 * that decide which materials are listed, and the stock badge of each row.
 */
module Materials {
  import Text
  import Seqs

  /** A row of the table (the unit price is left out, see README). */
  datatype Material = Material(
    id: string,
    name: string,
    category: string,
    unit: string,
    stockLevel: int,
    reorderPoint: int,
    lastUpdated: string,
    status: string)

  /** `field.toLowerCase().includes(term.toLowerCase())`. */
  predicate FieldMatches(field: string, term: string) {
    Text.Includes(Text.Lower(field), Text.Lower(term))
  }

  /** The search filter: the term occurs, ignoring case, in the name, the id or the category. */
  predicate MatchesSearch(m: Material, term: string) {
    FieldMatches(m.name, term) || FieldMatches(m.id, term) || FieldMatches(m.category, term)
  }

  /** The callback given to `filter`: the search, narrowed to low-stock rows on the "low_stock" tab. */
  predicate Keep(m: Material, term: string, tab: string) {
    if tab == "all" then MatchesSearch(m, term)
    else if tab == "low_stock" then MatchesSearch(m, term) && m.status == "low_stock"
    else MatchesSearch(m, term)
  }

  /**
   * `filteredMaterials`: every copy of a row the tab and search keep, and
   * nothing else.
   */
  function FilterMaterials(ms: seq<Material>, term: string, tab: string): (r: seq<Material>)
    ensures forall m :: multiset(r)[m] == if Keep(m, term, tab) then multiset(ms)[m] else 0
  {
    Seqs.FilterCounts(ms, m => Keep(m, term, tab));
    Seqs.Filter(ms, m => Keep(m, term, tab))
  }

  /** The search in terms of occurrences: some field, lower-cased, contains the lower-cased term. */
  lemma MatchesSearchIffOccurs(m: Material, term: string)
    ensures MatchesSearch(m, term) <==>
              (exists i: nat :: Text.OccursAt(Text.Lower(m.name), Text.Lower(term), i)) ||
              (exists i: nat :: Text.OccursAt(Text.Lower(m.id), Text.Lower(term), i)) ||
              (exists i: nat :: Text.OccursAt(Text.Lower(m.category), Text.Lower(term), i))
  {
    Text.IncludesIffOccurs(Text.Lower(m.name), Text.Lower(term));
    Text.IncludesIffOccurs(Text.Lower(m.id), Text.Lower(term));
    Text.IncludesIffOccurs(Text.Lower(m.category), Text.Lower(term));
    assert MatchesSearch(m, term) <==>
      Text.Includes(Text.Lower(m.name), Text.Lower(term)) ||
      Text.Includes(Text.Lower(m.id), Text.Lower(term)) ||
      Text.Includes(Text.Lower(m.category), Text.Lower(term));
  }

  /** A material is listed iff it is in the list, matches the search, and is low on stock when that tab is chosen. */
  lemma FilterMaterialsMembership(ms: seq<Material>, term: string, tab: string, m: Material)
    ensures m in FilterMaterials(ms, term, tab) <==>
              m in ms && MatchesSearch(m, term) && (tab == "low_stock" ==> m.status == "low_stock")
  {
    Seqs.FilterMembership(ms, x => Keep(x, term, tab), m);
  }

  /** Every tab other than "low_stock" lists exactly the search matches, as "all" does. */
  lemma OtherTabsListSearchMatches(ms: seq<Material>, term: string, tab: string)
    requires tab != "low_stock"
    ensures FilterMaterials(ms, term, tab) == FilterMaterials(ms, term, "all")
  {
    Seqs.FilterCongruent(ms, m => Keep(m, term, tab), m => Keep(m, term, "all"));
  }

  /** The "low_stock" tab lists an order-preserving sub-list of what "all" lists for the same term. */
  lemma LowStockWithinAll(ms: seq<Material>, term: string)
    ensures Seqs.IsSubseq(FilterMaterials(ms, term, "low_stock"), FilterMaterials(ms, term, "all"))
  {
    Seqs.FilterMonotone(ms, m => Keep(m, term, "low_stock"), m => Keep(m, term, "all"));
  }

  /** The listed rows keep the table's order, so "Showing N of M" never has N above M. */
  lemma FilterMaterialsIsSubseq(ms: seq<Material>, term: string, tab: string)
    ensures Seqs.IsSubseq(FilterMaterials(ms, term, tab), ms)
    ensures |FilterMaterials(ms, term, tab)| <= |ms|
  {
    Seqs.FilterIsSubseq(ms, m => Keep(m, term, tab));
    Seqs.FilterLength(ms, m => Keep(m, term, tab));
  }

  /** An empty search box on the "all" tab lists every material. */
  lemma EmptySearchListsAll(ms: seq<Material>)
    ensures FilterMaterials(ms, "", "all") == ms
  {
    forall i | 0 <= i < |ms| ensures Keep(ms[i], "", "all") {
      assert Text.Includes(Text.Lower(ms[i].name), Text.Lower(""));
    }
    Seqs.FilterKeepsAll(ms, m => Keep(m, "", "all"));
  }

  /** The search ignores the case of the term: typing it in lower case lists the same rows. */
  lemma SearchIgnoresCase(ms: seq<Material>, term: string, tab: string)
    ensures FilterMaterials(ms, term, tab) == FilterMaterials(ms, Text.Lower(term), tab)
  {
    Text.LowerIdempotent(term);
    forall i | 0 <= i < |ms|
      ensures Keep(ms[i], term, tab) == Keep(ms[i], Text.Lower(term), tab)
    {
      assert Text.Lower(Text.Lower(term)) == Text.Lower(term);
    }
    Seqs.FilterCongruent(ms, m => Keep(m, term, tab), m => Keep(m, Text.Lower(term), tab));
  }

  datatype BadgeStyle = ErrorStyle | SuccessStyle

  /** The stock badge: the error style at or below the reorder point, the success style above it. */
  function StockBadge(m: Material): (b: BadgeStyle)
    ensures b == ErrorStyle <==> m.stockLevel <= m.reorderPoint
    ensures b == SuccessStyle <==> m.stockLevel > m.reorderPoint
  {
    if m.stockLevel <= m.reorderPoint then ErrorStyle else SuccessStyle
  }
}

/**
 * The aggregation and validation helpers over stored receipts: per-category totals and groups, spending
 * within a calendar period, search, sorting by date, budget status and progress, validation of an
 * extracted receipt, truncation and percentage change.
 */
module Utils {
  import opened Basics
  import opened Text
  import opened Json
  import opened Constants
  import opened Dates
  import opened Sequences

  /** A receipt line as the helpers read it; an absent property is `None`. */
  datatype LineItem = LineItem(name: Option<string>, quantity: Option<real>, price: Option<real>, category: Option<string>)

  /** A stored receipt as the helpers read it, with its date already parsed. */
  datatype Receipt = Receipt(
    id: Option<string>,
    merchant: Option<string>,
    date: Option<Date>,
    total: Option<real>,
    items: Option<seq<LineItem>>)

  /** `item.category || 'other'`. */
  function CategoryOf(item: LineItem): string {
    if item.category.Some? && item.category.value != "" then item.category.value else OTHER
  }

  /** `item.price || 0`. */
  function PriceOf(item: LineItem): real {
    if item.price.Some? then item.price.value else 0.0
  }

  /** `receipt.total || 0`. */
  function TotalOf(r: Receipt): real {
    if r.total.Some? then r.total.value else 0.0
  }

  /** The items `receipt.items?.forEach` visits: none when the property is absent. */
  function ItemsOf(r: Receipt): seq<LineItem> {
    if r.items.Some? then r.items.value else []
  }

  // ---------------------------------------------------------------- category totals

  type Totals = map<string, real>

  /** `totals[c] || 0`. */
  function Lookup(m: map<string, real>, c: string): real {
    if c in m then m[c] else 0.0
  }

  /** The inner loop of the totals: `items` added one after the other to `totals`. */
  function AddItems(totals: Totals, items: seq<LineItem>): Totals
    decreases |items|
  {
    if items == [] then totals
    else
      var last := items[|items| - 1];
      var t := AddItems(totals, items[..|items| - 1]);
      t[CategoryOf(last) := Lookup(t, CategoryOf(last)) + PriceOf(last)]
  }

  /** The outer loop of the totals: every receipt's items, receipt after receipt. */
  function CategoryTotals(rs: seq<Receipt>): Totals
    decreases |rs|
  {
    if rs == [] then map[] else AddItems(CategoryTotals(rs[..|rs| - 1]), ItemsOf(rs[|rs| - 1]))
  }

  /** Sum of the prices of the items of category `c`. */
  function ItemsSum(items: seq<LineItem>, c: string): real
    decreases |items|
  {
    if items == [] then 0.0
    else
      var last := items[|items| - 1];
      ItemsSum(items[..|items| - 1], c) + (if CategoryOf(last) == c then PriceOf(last) else 0.0)
  }

  /** Sum of the prices of all items of category `c` over all receipts. */
  function CategorySum(rs: seq<Receipt>, c: string): real
    decreases |rs|
  {
    if rs == [] then 0.0 else CategorySum(rs[..|rs| - 1], c) + ItemsSum(ItemsOf(rs[|rs| - 1]), c)
  }

  /** Sum of the prices of all items. */
  function ItemsTotal(items: seq<LineItem>): real
    decreases |items|
  {
    if items == [] then 0.0 else ItemsTotal(items[..|items| - 1]) + PriceOf(items[|items| - 1])
  }

  function AllItemsTotal(rs: seq<Receipt>): real
    decreases |rs|
  {
    if rs == [] then 0.0 else AllItemsTotal(rs[..|rs| - 1]) + ItemsTotal(ItemsOf(rs[|rs| - 1]))
  }

  /** The categories the items fall into. */
  function ItemCategories(items: seq<LineItem>): set<string> {
    set i | i in items :: CategoryOf(i)
  }

  /** The categories of all items of all receipts. */
  function CategoriesIn(rs: seq<Receipt>): set<string> {
    set r, i | r in rs && i in ItemsOf(r) :: CategoryOf(i)
  }

  lemma ItemCategoriesSnoc(items: seq<LineItem>)
    requires items != []
    ensures ItemCategories(items) == ItemCategories(items[..|items| - 1]) + {CategoryOf(items[|items| - 1])}
  {
    var init := items[..|items| - 1];
    assert items == init + [items[|items| - 1]];
    forall c | c in ItemCategories(items)
      ensures c in ItemCategories(init) + {CategoryOf(items[|items| - 1])}
    {
      var i :| i in items && CategoryOf(i) == c;
    }
  }

  lemma CategoriesInSnoc(rs: seq<Receipt>)
    requires rs != []
    ensures CategoriesIn(rs) == CategoriesIn(rs[..|rs| - 1]) + ItemCategories(ItemsOf(rs[|rs| - 1]))
  {
    var init := rs[..|rs| - 1];
    assert rs == init + [rs[|rs| - 1]];
    forall c | c in CategoriesIn(rs)
      ensures c in CategoriesIn(init) + ItemCategories(ItemsOf(rs[|rs| - 1]))
    {
      var r, i :| r in rs && i in ItemsOf(r) && CategoryOf(i) == c;
      if r in init {
        assert c in CategoriesIn(init);
      }
    }
    forall c | c in CategoriesIn(init) ensures c in CategoriesIn(rs) {
      var r, i :| r in init && i in ItemsOf(r) && CategoryOf(i) == c;
      assert r in rs;
    }
    forall c | c in ItemCategories(ItemsOf(rs[|rs| - 1])) ensures c in CategoriesIn(rs) {
      var i :| i in ItemsOf(rs[|rs| - 1]) && CategoryOf(i) == c;
      assert rs[|rs| - 1] in rs;
    }
  }

  /** Adding items creates a key for each of their categories and adds each item's price to its own. */
  lemma {:induction false} AddItemsSpec(totals: Totals, items: seq<LineItem>)
    ensures AddItems(totals, items).Keys == totals.Keys + ItemCategories(items)
    ensures forall c :: Lookup(AddItems(totals, items), c) == Lookup(totals, c) + ItemsSum(items, c)
    decreases |items|
  {
    if items != [] {
      AddItemsSpec(totals, items[..|items| - 1]);
      ItemCategoriesSnoc(items);
    }
  }

  /**
   * The totals have a key exactly for each category some item falls into, and each key holds the sum of
   * the prices of the items of that category (absent categories read as 0).
   */
  lemma {:induction false} CategoryTotalsSpec(rs: seq<Receipt>)
    ensures CategoryTotals(rs).Keys == CategoriesIn(rs)
    ensures forall c :: Lookup(CategoryTotals(rs), c) == CategorySum(rs, c)
    decreases |rs|
  {
    if rs == [] {
    } else {
      CategoryTotalsSpec(rs[..|rs| - 1]);
      AddItemsSpec(CategoryTotals(rs[..|rs| - 1]), ItemsOf(rs[|rs| - 1]));
      CategoriesInSnoc(rs);
    }
  }

  /**
   * `calculateCategoryTotals`: a dictionary built by the two nested `forEach` loops, adding each item's
   * price to the running total of its category.
   */
  method CalculateCategoryTotals(receipts: seq<Receipt>) returns (totals: Totals)
    ensures totals == CategoryTotals(receipts)
    ensures totals.Keys == CategoriesIn(receipts)
    ensures forall c :: Lookup(totals, c) == CategorySum(receipts, c)
  {
    totals := map[];
    var i := 0;
    while i < |receipts|
      invariant 0 <= i <= |receipts|
      invariant totals == CategoryTotals(receipts[..i])
    {
      var items := ItemsOf(receipts[i]);
      ghost var before := totals;
      var j := 0;
      while j < |items|
        invariant 0 <= j <= |items|
        invariant totals == AddItems(before, items[..j])
      {
        var item := items[j];
        var category := CategoryOf(item);
        totals := totals[category := Lookup(totals, category) + PriceOf(item)];
        j := j + 1;
        assert items[..j][..j - 1] == items[..j - 1];
      }
      assert items[..j] == items;
      i := i + 1;
      assert receipts[..i][..i - 1] == receipts[..i - 1];
    }
    assert receipts[..i] == receipts;
    CategoryTotalsSpec(receipts);
  }

  lemma {:induction false} ItemsSumAppend(a: seq<LineItem>, b: seq<LineItem>, c: string)
    ensures ItemsSum(a + b, c) == ItemsSum(a, c) + ItemsSum(b, c)
    decreases |b|
  {
    if b == [] {
      assert a + b == a;
    } else {
      ItemsSumAppend(a, b[..|b| - 1], c);
      assert (a + b)[..|a + b| - 1] == a + b[..|b| - 1];
    }
  }

  lemma {:induction false} CategorySumAppend(a: seq<Receipt>, b: seq<Receipt>, c: string)
    ensures CategorySum(a + b, c) == CategorySum(a, c) + CategorySum(b, c)
    decreases |b|
  {
    if b == [] {
      assert a + b == a;
    } else {
      CategorySumAppend(a, b[..|b| - 1], c);
      assert (a + b)[..|a + b| - 1] == a + b[..|b| - 1];
    }
  }

  /** The totals of two receipt lists put together are the sums of their separate totals. */
  lemma CategoryTotalsAdditive(a: seq<Receipt>, b: seq<Receipt>)
    ensures CategoryTotals(a + b).Keys == CategoryTotals(a).Keys + CategoryTotals(b).Keys
    ensures forall c :: Lookup(CategoryTotals(a + b), c) == Lookup(CategoryTotals(a), c) + Lookup(CategoryTotals(b), c)
  {
    CategoryTotalsSpec(a);
    CategoryTotalsSpec(b);
    CategoryTotalsSpec(a + b);
    forall c ensures CategorySum(a + b, c) == CategorySum(a, c) + CategorySum(b, c) {
      CategorySumAppend(a, b, c);
    }
    forall c | c in CategoriesIn(a + b) ensures c in CategoriesIn(a) + CategoriesIn(b) {
      var r, i :| r in a + b && i in ItemsOf(r) && CategoryOf(i) == c;
      if r in a { assert c in CategoriesIn(a); } else { assert c in CategoriesIn(b); }
    }
    forall c | c in CategoriesIn(a) ensures c in CategoriesIn(a + b) {
      var r, i :| r in a && i in ItemsOf(r) && CategoryOf(i) == c;
      assert r in a + b;
    }
    forall c | c in CategoriesIn(b) ensures c in CategoriesIn(a + b) {
      var r, i :| r in b && i in ItemsOf(r) && CategoryOf(i) == c;
      assert r in a + b;
    }
  }

  /** The sum of all values of a map, in no particular order. */
  ghost function SumValues(m: map<string, real>): real
    decreases |m|
  {
    if m == map[] then 0.0
    else
      var k :| k in m;
      m[k] + SumValues(m - {k})
  }

  /** Any key can be taken out first. */
  lemma {:induction false} SumValuesRemove(m: map<string, real>, k: string)
    requires k in m
    ensures SumValues(m) == m[k] + SumValues(m - {k})
    decreases |m|
  {
    var j :| j in m && SumValues(m) == m[j] + SumValues(m - {j});
    if j != k {
      var mj := m - {j};
      var mk := m - {k};
      assert |mj| < |m| && |mk| < |m|;
      SumValuesRemove(mj, k);
      SumValuesRemove(mk, j);
      assert mj - {k} == mk - {j};
    }
  }

  /** Adding `p` to one key's value (creating it at 0 if needed) adds `p` to the sum. */
  lemma SumValuesBump(m: map<string, real>, c: string, p: real)
    ensures SumValues(m[c := Lookup(m, c) + p]) == SumValues(m) + p
  {
    var m' := m[c := Lookup(m, c) + p];
    SumValuesRemove(m', c);
    if c in m {
      SumValuesRemove(m, c);
      assert m' - {c} == m - {c};
    } else {
      assert m' - {c} == m;
    }
  }

  lemma {:induction false} AddItemsGrandTotal(totals: Totals, items: seq<LineItem>)
    ensures SumValues(AddItems(totals, items)) == SumValues(totals) + ItemsTotal(items)
    decreases |items|
  {
    if items != [] {
      var last := items[|items| - 1];
      AddItemsGrandTotal(totals, items[..|items| - 1]);
      SumValuesBump(AddItems(totals, items[..|items| - 1]), CategoryOf(last), PriceOf(last));
    }
  }

  /** The totals over all categories add up to the sum of all item prices. */
  lemma {:induction false} CategoryTotalsGrandTotal(rs: seq<Receipt>)
    ensures SumValues(CategoryTotals(rs)) == AllItemsTotal(rs)
    decreases |rs|
  {
    if rs != [] {
      CategoryTotalsGrandTotal(rs[..|rs| - 1]);
      AddItemsGrandTotal(CategoryTotals(rs[..|rs| - 1]), ItemsOf(rs[|rs| - 1]));
    }
  }

  // ---------------------------------------------------------------- grouping by category

  /** `{ ...item, receiptId: receipt.id, date: receipt.date }`. */
  datatype GroupedItem = GroupedItem(item: LineItem, receiptId: Option<string>, date: Option<Date>)

  type Groups = map<string, seq<GroupedItem>>

  /** `groups[c]`, with an absent group read as empty. */
  function GroupOf(g: Groups, c: string): seq<GroupedItem> {
    if c in g then g[c] else []
  }

  /** The entries one receipt contributes, one per item, in item order. */
  function ItemEntries(r: Receipt, items: seq<LineItem>): (es: seq<GroupedItem>)
    ensures |es| == |items|
    ensures forall i :: 0 <= i < |items| ==> es[i] == GroupedItem(items[i], r.id, r.date)
  {
    seq(|items|, i requires 0 <= i < |items| => GroupedItem(items[i], r.id, r.date))
  }

  /** All entries of all receipts, in visiting order. */
  function Entries(rs: seq<Receipt>): seq<GroupedItem>
    decreases |rs|
  {
    if rs == [] then [] else Entries(rs[..|rs| - 1]) + ItemEntries(rs[|rs| - 1], ItemsOf(rs[|rs| - 1]))
  }

  /** The inner loop of the grouping: each item pushed onto the group of its category. */
  function AddGroupItems(g: Groups, r: Receipt, items: seq<LineItem>): Groups
    decreases |items|
  {
    if items == [] then g
    else
      var last := items[|items| - 1];
      var h := AddGroupItems(g, r, items[..|items| - 1]);
      h[CategoryOf(last) := GroupOf(h, CategoryOf(last)) + [GroupedItem(last, r.id, r.date)]]
  }

  function GroupsOf(rs: seq<Receipt>): Groups
    decreases |rs|
  {
    if rs == [] then map[] else AddGroupItems(GroupsOf(rs[..|rs| - 1]), rs[|rs| - 1], ItemsOf(rs[|rs| - 1]))
  }

  /** An entry belongs to the group of its item's category. */
  function InCategory(c: string): GroupedItem -> bool {
    (e: GroupedItem) => CategoryOf(e.item) == c
  }

  lemma {:induction false} AddGroupItemsKeys(g: Groups, r: Receipt, items: seq<LineItem>)
    ensures AddGroupItems(g, r, items).Keys == g.Keys + ItemCategories(items)
    decreases |items|
  {
    if items != [] {
      AddGroupItemsKeys(g, r, items[..|items| - 1]);
      ItemCategoriesSnoc(items);
    }
  }

  /** The entries of a list of items that grows at the end. */
  lemma ItemEntriesSnoc(r: Receipt, items: seq<LineItem>)
    requires items != []
    ensures ItemEntries(r, items) == ItemEntries(r, items[..|items| - 1]) + [GroupedItem(items[|items| - 1], r.id, r.date)]
  {
    var init := items[..|items| - 1];
    var rhs := ItemEntries(r, init) + [GroupedItem(items[|items| - 1], r.id, r.date)];
    forall i | 0 <= i < |items| ensures ItemEntries(r, items)[i] == rhs[i] {
      if i < |init| {
        assert init[i] == items[i];
      }
    }
  }

  lemma {:induction false} AddGroupItemsSpec(g: Groups, r: Receipt, items: seq<LineItem>, c: string)
    ensures GroupOf(AddGroupItems(g, r, items), c) == GroupOf(g, c) + Filter(ItemEntries(r, items), InCategory(c))
    decreases |items|
  {
    if items == [] {
      assert ItemEntries(r, items) == [];
    } else {
      var init := items[..|items| - 1];
      var last := items[|items| - 1];
      var e := GroupedItem(last, r.id, r.date);
      var h := AddGroupItems(g, r, init);
      assert AddGroupItems(g, r, items) == h[CategoryOf(last) := GroupOf(h, CategoryOf(last)) + [e]];
      AddGroupItemsSpec(g, r, init, c);
      ItemEntriesSnoc(r, items);
      FilterAppend(ItemEntries(r, init), [e], InCategory(c));
      FilterCons(e, [], InCategory(c));
      assert [e] + [] == [e];
      if CategoryOf(last) == c {
        assert Filter([e], InCategory(c)) == [e];
      } else {
        assert Filter([e], InCategory(c)) == [];
      }
    }
  }

  /**
   * Each group holds exactly the entries of its category, in visiting order; the group keys are the
   * categories some item falls into.
   */
  lemma {:induction false} GroupsSpec(rs: seq<Receipt>)
    ensures GroupsOf(rs).Keys == CategoriesIn(rs)
    ensures forall c :: GroupOf(GroupsOf(rs), c) == Filter(Entries(rs), InCategory(c))
    decreases |rs|
  {
    if rs != [] {
      var init := rs[..|rs| - 1];
      var last := rs[|rs| - 1];
      GroupsSpec(init);
      AddGroupItemsKeys(GroupsOf(init), last, ItemsOf(last));
      CategoriesInSnoc(rs);
      forall c ensures GroupOf(GroupsOf(rs), c) == Filter(Entries(rs), InCategory(c)) {
        AddGroupItemsSpec(GroupsOf(init), last, ItemsOf(last), c);
        FilterAppend(Entries(init), ItemEntries(last, ItemsOf(last)), InCategory(c));
      }
    }
  }

  /**
   * `groupReceiptsByCategory`: the two nested `forEach` loops push a copy of each item, tagged with its
   * receipt's id and date, onto the group of its category.
   */
  method GroupReceiptsByCategory(receipts: seq<Receipt>) returns (groups: Groups)
    ensures groups == GroupsOf(receipts)
    ensures groups.Keys == CategoriesIn(receipts)
    ensures forall c :: GroupOf(groups, c) == Filter(Entries(receipts), InCategory(c))
  {
    groups := map[];
    var i := 0;
    while i < |receipts|
      invariant 0 <= i <= |receipts|
      invariant groups == GroupsOf(receipts[..i])
    {
      var receipt := receipts[i];
      var items := ItemsOf(receipt);
      ghost var before := groups;
      var j := 0;
      while j < |items|
        invariant 0 <= j <= |items|
        invariant groups == AddGroupItems(before, receipt, items[..j])
      {
        var item := items[j];
        var category := CategoryOf(item);
        if category !in groups {
          groups := groups[category := []];
        }
        groups := groups[category := groups[category] + [GroupedItem(item, receipt.id, receipt.date)]];
        j := j + 1;
        assert items[..j][..j - 1] == items[..j - 1];
      }
      assert items[..j] == items;
      i := i + 1;
      assert receipts[..i][..i - 1] == receipts[..i - 1];
    }
    assert receipts[..i] == receipts;
    GroupsSpec(receipts);
  }

  /** The group sizes, as numbers. */
  function Sizes(g: Groups): map<string, real> {
    map c | c in g :: |g[c]| as real
  }

  /** Number of items over all receipts. */
  function ItemCount(rs: seq<Receipt>): nat
    decreases |rs|
  {
    if rs == [] then 0 else ItemCount(rs[..|rs| - 1]) + |ItemsOf(rs[|rs| - 1])|
  }

  lemma {:induction false} AddGroupItemsCount(g: Groups, r: Receipt, items: seq<LineItem>)
    ensures SumValues(Sizes(AddGroupItems(g, r, items))) == SumValues(Sizes(g)) + |items| as real
    decreases |items|
  {
    if items != [] {
      var last := items[|items| - 1];
      var h := AddGroupItems(g, r, items[..|items| - 1]);
      AddGroupItemsCount(g, r, items[..|items| - 1]);
      var c := CategoryOf(last);
      assert Sizes(AddGroupItems(g, r, items)) == Sizes(h)[c := Lookup(Sizes(h), c) + 1.0];
      SumValuesBump(Sizes(h), c, 1.0);
    }
  }

  /** Every item lands in exactly one group: the group sizes add up to the number of items. */
  lemma {:induction false} GroupsCountItems(rs: seq<Receipt>)
    ensures SumValues(Sizes(GroupsOf(rs))) == ItemCount(rs) as real
    decreases |rs|
  {
    if rs == [] {
      assert Sizes(map[]) == map[];
    } else {
      GroupsCountItems(rs[..|rs| - 1]);
      AddGroupItemsCount(GroupsOf(rs[..|rs| - 1]), rs[|rs| - 1], ItemsOf(rs[|rs| - 1]));
    }
  }

  // ---------------------------------------------------------------- spending within a period

  datatype Period = Week | Month | Quarter | Year | All

  /** The `period` argument; a value other than the four named periods falls through to `all`. */
  function ParsePeriod(s: string): Period {
    if s == "week" then Week
    else if s == "month" then Month
    else if s == "quarter" then Quarter
    else if s == "year" then Year
    else All
  }

  /** The period used when none is given. */
  const DEFAULT_PERIOD: Period := Month

  const WEEK_MS: int := 7 * 24 * 60 * 60 * 1000

  /**
   * Whether a receipt falls in the period around `now`. A receipt without a date reads as an invalid
   * date, which no comparison accepts.
   */
  predicate InPeriod(period: Period, now: Now, r: Receipt) {
    match period
    case Week => r.date.Some? && TimeOfDate(r.date.value) >= NowMs(now) - WEEK_MS
    case Month => r.date.Some? && r.date.value.month == now.date.month && r.date.value.year == now.date.year
    case Quarter => r.date.Some? && Dates.Quarter(r.date.value) == Dates.Quarter(now.date) && r.date.value.year == now.date.year
    case Year => r.date.Some? && r.date.value.year == now.date.year
    case All => true
  }

  function InPeriodOf(period: Period, now: Now): Receipt -> bool {
    r => InPeriod(period, now, r)
  }

  /** `calculatePeriodSpending`: the totals of the receipts in the period, missing totals as 0. */
  function PeriodSpending(rs: seq<Receipt>, period: Period, now: Now): real {
    Sum(Filter(rs, InPeriodOf(period, now)), TotalOf)
  }

  /** Over `all`, the spending is the sum of every receipt's total. */
  lemma PeriodAllIsEverything(rs: seq<Receipt>, now: Now)
    ensures PeriodSpending(rs, All, now) == Sum(rs, TotalOf)
  {
    FilterAll(rs, InPeriodOf(All, now));
  }

  /** With non-negative totals, the periods nest: month within quarter within year within all. */
  lemma PeriodsNest(rs: seq<Receipt>, now: Now)
    requires forall r :: r in rs ==> TotalOf(r) >= 0.0
    ensures PeriodSpending(rs, Month, now) <= PeriodSpending(rs, Quarter, now)
    ensures PeriodSpending(rs, Quarter, now) <= PeriodSpending(rs, Year, now)
    ensures PeriodSpending(rs, Year, now) <= PeriodSpending(rs, All, now)
    ensures PeriodSpending(rs, Week, now) <= PeriodSpending(rs, All, now)
  {
    SumFilterMonotone(rs, InPeriodOf(Month, now), InPeriodOf(Quarter, now), TotalOf);
    SumFilterMonotone(rs, InPeriodOf(Quarter, now), InPeriodOf(Year, now), TotalOf);
    SumFilterMonotone(rs, InPeriodOf(Year, now), InPeriodOf(All, now), TotalOf);
    SumFilterMonotone(rs, InPeriodOf(Week, now), InPeriodOf(All, now), TotalOf);
  }

  // ---------------------------------------------------------------- search

  /** `s?.toLowerCase().includes(q)`: false when the property is absent. */
  predicate TextMatches(s: Option<string>, q: string) {
    s.Some? && Contains(Lower(s.value), q)
  }

  /** The merchant, an item name or an item category contains the lower-cased query. */
  predicate MatchesQuery(r: Receipt, q: string) {
    TextMatches(r.merchant, q)
    || (exists i :: 0 <= i < |ItemsOf(r)| && TextMatches(ItemsOf(r)[i].name, q))
    || (exists i :: 0 <= i < |ItemsOf(r)| && TextMatches(ItemsOf(r)[i].category, q))
  }

  function MatchesOf(q: string): Receipt -> bool {
    r => MatchesQuery(r, q)
  }

  /** `searchReceipts`: a blank query keeps everything; otherwise the matching receipts, in order. */
  function SearchReceipts(rs: seq<Receipt>, query: Option<string>): (r: seq<Receipt>)
    ensures query.None? || Trim(query.value) == "" ==> r == rs
    ensures query.Some? && Trim(query.value) != "" ==>
              IsSubsequence(r, rs) && forall x :: x in r <==> x in rs && MatchesQuery(x, Lower(query.value))
    ensures query.Some? && Trim(query.value) != "" ==>
              forall x :: multiset(r)[x] == if MatchesQuery(x, Lower(query.value)) then multiset(rs)[x] else 0
  {
    if query.None? || Trim(query.value) == "" then rs
    else
      FilterIsSubsequence(rs, MatchesOf(Lower(query.value)));
      FilterMembers(rs, MatchesOf(Lower(query.value)));
      FilterCounts(rs, MatchesOf(Lower(query.value)));
      Filter(rs, MatchesOf(Lower(query.value)))
  }

  // ---------------------------------------------------------------- sorting by date

  datatype SortOrder = Desc | Asc

  /** The `order` argument: only `'desc'` sorts newest first; any other value sorts oldest first. */
  function ParseOrder(s: string): SortOrder {
    if s == "desc" then Desc else Asc
  }

  predicate Dated(rs: seq<Receipt>) {
    forall r :: r in rs ==> r.date.Some?
  }

  /** `new Date(r.date).getTime()`. */
  function DateKey(r: Receipt): int
    requires r.date.Some?
  {
    TimeOfDate(r.date.value)
  }

  /** `a` may stand before `b`: the comparator does not ask for `b` first. */
  predicate InOrder(order: SortOrder, a: Receipt, b: Receipt)
    requires a.date.Some? && b.date.Some?
  {
    if order == Desc then DateKey(a) >= DateKey(b) else DateKey(a) <= DateKey(b)
  }

  predicate SortedBy(order: SortOrder, s: seq<Receipt>)
    requires Dated(s)
  {
    forall i, j :: 0 <= i < j < |s| ==> InOrder(order, s[i], s[j])
  }

  /** Inserts `x` before the first element it may precede, so it goes ahead of any elements with an equal date. */
  function Insert(order: SortOrder, x: Receipt, s: seq<Receipt>): (r: seq<Receipt>)
    requires x.date.Some? && Dated(s)
    ensures multiset(r) == multiset(s) + multiset{x}
    ensures Dated(r)
  {
    if s == [] then [x]
    else if InOrder(order, x, s[0]) then [x] + s
    else
      assert s == [s[0]] + s[1..];
      [s[0]] + Insert(order, x, s[1..])
  }

  /** Every element of the result is `x` or an element of `s`. */
  lemma InsertMembers(order: SortOrder, x: Receipt, s: seq<Receipt>)
    requires x.date.Some? && Dated(s)
    ensures forall z :: z in Insert(order, x, s) ==> z == x || z in s
  {
    var r := Insert(order, x, s);
    forall z | z in r ensures z == x || z in s {
      assert z in multiset(r);
    }
  }

  /** An element that may precede `x` and all of `s` may precede every element of the insertion. */
  lemma InsertBound(order: SortOrder, x: Receipt, s: seq<Receipt>, y: Receipt)
    requires x.date.Some? && y.date.Some? && Dated(s)
    requires InOrder(order, y, x)
    requires forall k :: 0 <= k < |s| ==> InOrder(order, y, s[k])
    ensures forall k :: 0 <= k < |Insert(order, x, s)| ==> InOrder(order, y, Insert(order, x, s)[k])
  {
    var r := Insert(order, x, s);
    InsertMembers(order, x, s);
    forall k | 0 <= k < |r| ensures InOrder(order, y, r[k]) {
      assert r[k] in r;
      if r[k] != x {
        var m :| 0 <= m < |s| && s[m] == r[k];
      }
    }
  }

  /** A sorted list stays sorted behind an element that may precede all of it. */
  lemma ConsSorted(order: SortOrder, h: Receipt, s: seq<Receipt>)
    requires h.date.Some? && Dated(s) && SortedBy(order, s)
    requires forall k :: 0 <= k < |s| ==> InOrder(order, h, s[k])
    ensures Dated([h] + s) && SortedBy(order, [h] + s)
  {
    var r := [h] + s;
    forall i, j | 0 <= i < j < |r| ensures InOrder(order, r[i], r[j]) {
      if i == 0 {
        assert r[j] == s[j - 1];
      } else {
        assert r[i] == s[i - 1] && r[j] == s[j - 1];
      }
    }
  }

  /** The tail of a sorted list is sorted, and its head may precede all of it. */
  lemma TailSorted(order: SortOrder, s: seq<Receipt>)
    requires s != [] && Dated(s) && SortedBy(order, s)
    ensures Dated(s[1..]) && SortedBy(order, s[1..])
    ensures forall k :: 0 <= k < |s| - 1 ==> InOrder(order, s[0], s[1..][k])
  {
    assert forall y :: y in s[1..] ==> y in s;
    forall i, j | 0 <= i < j < |s| - 1 ensures InOrder(order, s[1..][i], s[1..][j]) {
      assert s[1..][i] == s[i + 1] && s[1..][j] == s[j + 1];
    }
    forall k | 0 <= k < |s| - 1 ensures InOrder(order, s[0], s[1..][k]) {
      assert s[1..][k] == s[k + 1];
    }
  }

  lemma {:induction false} InsertSorted(order: SortOrder, x: Receipt, s: seq<Receipt>)
    requires x.date.Some? && Dated(s) && SortedBy(order, s)
    ensures SortedBy(order, Insert(order, x, s))
  {
    if s == [] {
    } else if InOrder(order, x, s[0]) {
      TailSorted(order, s);
      ConsSorted(order, x, s);
    } else {
      var tail := s[1..];
      TailSorted(order, s);
      InsertSorted(order, x, tail);
      InsertBound(order, x, tail, s[0]);
      ConsSorted(order, s[0], Insert(order, x, tail));
    }
  }

  /** `[...receipts].sort(...)`: a sorted copy; stable, as `Array.prototype.sort` is. */
  function SortReceiptsByDate(rs: seq<Receipt>, order: SortOrder): (r: seq<Receipt>)
    requires Dated(rs)
    ensures multiset(r) == multiset(rs)
    ensures Dated(r)
    ensures SortedBy(order, r)
  {
    if rs == [] then []
    else
      assert rs == [rs[0]] + rs[1..];
      var sorted := SortReceiptsByDate(rs[1..], order);
      InsertSorted(order, rs[0], sorted);
      Insert(order, rs[0], sorted)
  }

  /** Receipts with the given date. */
  function HasDateKey(k: int): Receipt -> bool {
    (r: Receipt) => r.date.Some? && DateKey(r) == k
  }

  lemma {:induction false} InsertStable(order: SortOrder, x: Receipt, s: seq<Receipt>, k: int)
    requires x.date.Some? && Dated(s)
    ensures Filter(Insert(order, x, s), HasDateKey(k)) == Filter([x] + s, HasDateKey(k))
  {
    if s != [] && !InOrder(order, x, s[0]) {
      var p := HasDateKey(k);
      var tail := s[1..];
      assert s == [s[0]] + tail;
      InsertStable(order, x, tail, k);
      var rest := Insert(order, x, tail);
      FilterCons(s[0], rest, p);
      FilterCons(x, tail, p);
      FilterCons(x, s, p);
      FilterCons(s[0], tail, p);
      assert DateKey(x) != DateKey(s[0]);
    }
  }

  /** Receipts of equal date keep their input order. */
  lemma {:induction false} SortStable(rs: seq<Receipt>, order: SortOrder, k: int)
    requires Dated(rs)
    ensures Filter(SortReceiptsByDate(rs, order), HasDateKey(k)) == Filter(rs, HasDateKey(k))
  {
    if rs != [] {
      var tail := rs[1..];
      assert rs == [rs[0]] + tail;
      SortStable(tail, order, k);
      var sorted := SortReceiptsByDate(tail, order);
      InsertStable(order, rs[0], sorted, k);
      FilterCons(rs[0], sorted, HasDateKey(k));
      FilterCons(rs[0], tail, HasDateKey(k));
    }
  }

  // ---------------------------------------------------------------- budget status and progress

  datatype BudgetStatus = Unknown | Safe | Warning | Danger | Critical

  /** How far over the budget a status is; `Unknown` ranks below every other. */
  function Severity(s: BudgetStatus): int {
    match s
    case Unknown => -1
    case Safe => 0
    case Warning => 1
    case Danger => 2
    case Critical => 3
  }

  /** `getBudgetStatus`: bands of `spent / budget` at 0.8, 1.0 and 1.2. */
  function GetBudgetStatus(spent: real, budget: Option<real>): (s: BudgetStatus)
    ensures s == Unknown <==> budget.None? || budget.value == 0.0
  {
    if budget.None? || budget.value == 0.0 then Unknown
    else
      var percentage := spent / budget.value;
      if percentage < 0.8 then Safe
      else if percentage < 1.0 then Warning
      else if percentage < 1.2 then Danger
      else Critical
  }

  lemma RatioBelow(spent: real, budget: real, t: real)
    requires budget > 0.0
    ensures spent / budget < t <==> spent < t * budget
  {
    assert (spent / budget) * budget == spent;
  }

  /**
   * For a positive budget, each status is exactly the band between the thresholds (times the budget)
   * that the spending falls in.
   */
  lemma BudgetStatusBands(spent: real, budget: real)
    requires budget > 0.0
    ensures GetBudgetStatus(spent, Some(budget)) == Safe <==> spent < BUDGET_THRESHOLDS.warning * budget
    ensures GetBudgetStatus(spent, Some(budget)) == Warning <==>
              BUDGET_THRESHOLDS.warning * budget <= spent < BUDGET_THRESHOLDS.danger * budget
    ensures GetBudgetStatus(spent, Some(budget)) == Danger <==>
              BUDGET_THRESHOLDS.danger * budget <= spent < BUDGET_THRESHOLDS.critical * budget
    ensures GetBudgetStatus(spent, Some(budget)) == Critical <==> BUDGET_THRESHOLDS.critical * budget <= spent
  {
    RatioBelow(spent, budget, 0.8);
    RatioBelow(spent, budget, 1.0);
    RatioBelow(spent, budget, 1.2);
  }

  /** For a fixed positive budget, spending more never gives a milder status. */
  lemma BudgetStatusMonotone(spent1: real, spent2: real, budget: real)
    requires budget > 0.0 && spent1 <= spent2
    ensures Severity(GetBudgetStatus(spent1, Some(budget))) <= Severity(GetBudgetStatus(spent2, Some(budget)))
  {
    BudgetStatusBands(spent1, budget);
    BudgetStatusBands(spent2, budget);
  }

  function Min(a: real, b: real): real {
    if a <= b then a else b
  }

  function Max(a: real, b: real): real {
    if a >= b then a else b
  }

  /** `calculateBudgetProgress`: the spent share of the budget in percent, clamped for display. */
  function BudgetProgress(spent: real, budget: Option<real>): (p: real)
    ensures 0.0 <= p <= 150.0
    ensures budget.None? || budget.value == 0.0 ==> p == 0.0
  {
    if budget.None? || budget.value == 0.0 then 0.0
    else Min(Max(spent / budget.value * 100.0, 0.0), 150.0)
  }

  /** Within the display range, the progress is exactly the spent share in percent. */
  lemma BudgetProgressExact(spent: real, budget: real)
    requires budget > 0.0 && 0.0 <= spent <= 1.5 * budget
    ensures BudgetProgress(spent, Some(budget)) * budget == 100.0 * spent
  {
    RatioBelow(spent, budget, 1.5);
    assert (spent / budget) * budget == spent;
    if spent == 1.5 * budget {
      assert spent / budget == 1.5;
    }
  }

  /** The status and the progress bar agree: each status covers the matching stretch of the bar. */
  lemma ProgressMatchesStatus(spent: real, budget: real)
    requires budget > 0.0
    ensures GetBudgetStatus(spent, Some(budget)) == Safe ==> BudgetProgress(spent, Some(budget)) < 80.0
    ensures GetBudgetStatus(spent, Some(budget)) == Warning ==> 80.0 <= BudgetProgress(spent, Some(budget)) < 100.0
    ensures GetBudgetStatus(spent, Some(budget)) == Danger ==> 100.0 <= BudgetProgress(spent, Some(budget)) < 120.0
    ensures GetBudgetStatus(spent, Some(budget)) == Critical ==> 120.0 <= BudgetProgress(spent, Some(budget))
  {
  }

  // ---------------------------------------------------------------- validation

  const MERCHANT_REQUIRED: string := "Merchant name is required"
  const DATE_REQUIRED: string := "Date is required"
  const TOTAL_REQUIRED: string := "Valid total amount is required"
  const ITEMS_REQUIRED: string := "At least one item is required"

  /** Every message, in the order the checks run. */
  const VALIDATION_MESSAGES: seq<string> := [MERCHANT_REQUIRED, DATE_REQUIRED, TOTAL_REQUIRED, ITEMS_REQUIRED]

  datatype Validation = Validation(isValid: bool, errors: seq<string>)

  /** The TypeErrors the validation can raise. */
  datatype ValidationError =
    | DataIsNull       // reading `data.merchant` of null or undefined
    | MerchantNotText  // `data.merchant.trim` is not a function

  /** A truthy merchant that is not a string has no `trim`. */
  predicate MerchantThrows(data: Value) {
    var m := Prop(data, "merchant");
    Truthy(m) && !m.Str? && !m.Stamp?
  }

  predicate MerchantFails(data: Value) {
    var m := Prop(data, "merchant");
    !Truthy(m) || (m.Str? && Trim(m.s) == "")
  }

  predicate DateFails(data: Value) {
    !Truthy(Prop(data, "date"))
  }

  /** `!total || isNaN(total) || total < 0`, with `isNaN` and `<` both converting through `Number`. */
  predicate TotalFails(data: Value) {
    var t := Prop(data, "total");
    !Truthy(t) || ToNumber(t).NaN? || ToNumber(t).r < 0.0
  }

  predicate ItemsFails(data: Value) {
    var it := Prop(data, "items");
    !Truthy(it) || !it.Arr? || |it.elems| == 0
  }

  /** `validateReceiptData`: the failing checks push their message onto `errors`, in order. */
  method ValidateReceiptData(data: Value) returns (r: Result<Validation, ValidationError>)
    ensures r.Failure? <==> data.Null? || data.Undefined? || MerchantThrows(data)
    ensures r.Failure? ==> r.error == (if data.Null? || data.Undefined? then DataIsNull else MerchantNotText)
    ensures r.Success? ==> (r.value.isValid <==> r.value.errors == [])
    ensures r.Success? ==> IsSubsequence(r.value.errors, VALIDATION_MESSAGES)
    ensures r.Success? ==> (MERCHANT_REQUIRED in r.value.errors <==> MerchantFails(data))
    ensures r.Success? ==> (DATE_REQUIRED in r.value.errors <==> DateFails(data))
    ensures r.Success? ==> (TOTAL_REQUIRED in r.value.errors <==> TotalFails(data))
    ensures r.Success? ==> (ITEMS_REQUIRED in r.value.errors <==> ItemsFails(data))
  {
    if data.Null? || data.Undefined? {
      return Failure(DataIsNull);
    }
    if MerchantThrows(data) {
      return Failure(MerchantNotText);
    }
    var merchantFails, dateFails, totalFails, itemsFails :=
      MerchantFails(data), DateFails(data), TotalFails(data), ItemsFails(data);
    var errors: seq<string> := [];
    if merchantFails {
      errors := errors + [MERCHANT_REQUIRED];
    }
    if dateFails {
      errors := errors + [DATE_REQUIRED];
    }
    if totalFails {
      errors := errors + [TOTAL_REQUIRED];
    }
    if itemsFails {
      errors := errors + [ITEMS_REQUIRED];
    }
    assert errors == FailedMessages(merchantFails, dateFails, totalFails, itemsFails);
    FailedMessagesSpec(merchantFails, dateFails, totalFails, itemsFails);
    r := Success(Validation(|errors| == 0, errors));
  }

  /** The messages of the failing checks, in the order the checks run. */
  function FailedMessages(merchant: bool, date: bool, total: bool, items: bool): seq<string> {
    (if merchant then [MERCHANT_REQUIRED] else []) + (if date then [DATE_REQUIRED] else [])
    + (if total then [TOTAL_REQUIRED] else []) + (if items then [ITEMS_REQUIRED] else [])
  }

  /** The messages of the failing checks keep the fixed order of the checks. */
  lemma FailedMessagesOrdered(merchant: bool, date: bool, total: bool, items: bool)
    ensures IsSubsequence(FailedMessages(merchant, date, total, items), VALIDATION_MESSAGES)
  {
    var e1: seq<string> := if merchant then [MERCHANT_REQUIRED] else [];
    SubsequenceSnoc([], [], MERCHANT_REQUIRED);
    assert [] + [MERCHANT_REQUIRED] == VALIDATION_MESSAGES[..1];
    assert IsSubsequence(e1, VALIDATION_MESSAGES[..1]);
    var e2 := e1 + (if date then [DATE_REQUIRED] else []);
    if !date { assert e2 == e1; }
    SubsequenceSnoc(e1, VALIDATION_MESSAGES[..1], DATE_REQUIRED);
    assert VALIDATION_MESSAGES[..1] + [DATE_REQUIRED] == VALIDATION_MESSAGES[..2];
    assert IsSubsequence(e2, VALIDATION_MESSAGES[..2]);
    var e3 := e2 + (if total then [TOTAL_REQUIRED] else []);
    if !total { assert e3 == e2; }
    SubsequenceSnoc(e2, VALIDATION_MESSAGES[..2], TOTAL_REQUIRED);
    assert VALIDATION_MESSAGES[..2] + [TOTAL_REQUIRED] == VALIDATION_MESSAGES[..3];
    assert IsSubsequence(e3, VALIDATION_MESSAGES[..3]);
    var e4 := e3 + (if items then [ITEMS_REQUIRED] else []);
    if !items { assert e4 == e3; }
    SubsequenceSnoc(e3, VALIDATION_MESSAGES[..3], ITEMS_REQUIRED);
    assert VALIDATION_MESSAGES[..3] + [ITEMS_REQUIRED] == VALIDATION_MESSAGES;
  }

  /** A message is present exactly when its check fails. */
  lemma FailedMessagesMembers(merchant: bool, date: bool, total: bool, items: bool)
    ensures var e := FailedMessages(merchant, date, total, items);
      && (MERCHANT_REQUIRED in e <==> merchant)
      && (DATE_REQUIRED in e <==> date)
      && (TOTAL_REQUIRED in e <==> total)
      && (ITEMS_REQUIRED in e <==> items)
  {
    // The four messages start with four different letters.
    assert MERCHANT_REQUIRED[0] == 'M' && DATE_REQUIRED[0] == 'D';
    assert TOTAL_REQUIRED[0] == 'V' && ITEMS_REQUIRED[0] == 'A';
  }

  /** One message per failing check and no other, in the fixed order; none exactly when all pass. */
  lemma FailedMessagesSpec(merchant: bool, date: bool, total: bool, items: bool)
    ensures var e := FailedMessages(merchant, date, total, items);
      && IsSubsequence(e, VALIDATION_MESSAGES)
      && (MERCHANT_REQUIRED in e <==> merchant)
      && (DATE_REQUIRED in e <==> date)
      && (TOTAL_REQUIRED in e <==> total)
      && (ITEMS_REQUIRED in e <==> items)
      && (e == [] <==> !merchant && !date && !total && !items)
  {
    FailedMessagesOrdered(merchant, date, total, items);
    FailedMessagesMembers(merchant, date, total, items);
  }

  // ---------------------------------------------------------------- text and arithmetic

  const TRUNCATE_LENGTH: int := 50

  /** `truncate`: text longer than `length` is cut to `length` characters and marked with an ellipsis. */
  function Truncate(text: Option<string>, length: int): (r: string)
    ensures text.None? || text.value == "" ==> r == ""
    ensures text.Some? && |text.value| <= length ==> r == text.value
    ensures text.Some? && text.value != "" && |text.value| > length ==>
              |r| == (if length < 0 then 0 else length) + 3 && r[|r| - 3..] == "..." && StartsWith(text.value, r[..|r| - 3])
  {
    if text.None? || text.value == "" then ""
    else if |text.value| <= length then text.value
    else text.value[..if length < 0 then 0 else length] + "..."
  }

  /** `calculatePercentageChange`: the change from `previous` to `current`, in percent of `previous`. */
  function PercentageChange(current: real, previous: Option<real>): (r: real)
    ensures previous.None? || previous.value == 0.0 ==> r == 0.0
    ensures previous.Some? && previous.value != 0.0 ==> previous.value + previous.value * r / 100.0 == current
  {
    if previous.None? || previous.value == 0.0 then 0.0
    else
      var p := previous.value;
      assert p * ((current - p) / p) == current - p;
      (current - p) / p * 100.0
  }
}

/**
 * The list rules of the security-standards facet of the coding-rules page: what a click
 * on an item or on "clear" asks the page to change, how the OWASP and SonarSource
 * categories are ordered, and which SonarSource categories are shown before the list is
 * expanded.
 *
 * The component's loading, rendering and state plumbing are not part of this model.
 * What the page does with a change is modelled by `Apply`: the keys of the change
 * replace the current values, every other key keeps its value.
 */
module StandardFacet {
  import opened Wrappers
  import opened Seqs

  /** The query keys this facet writes: the facet's own key and the four standards. */
  datatype FacetProp = Standards | OwaspTop10 | OwaspTop10_2021 | Cwe | SonarsourceSecurity

  /** The four keys whose items can be clicked. */
  type ValuesProp = p: FacetProp | p != Standards witness OwaspTop10

  /** The selected items under each key. */
  type Selection = FacetProp -> seq<string>

  /** The partial query handed to `onChange`. */
  type Change = map<FacetProp, seq<string>>

  /** The page's merge of a partial query into the current one. */
  function Apply(sel: Selection, change: Change): (r: Selection)
    ensures forall p :: p in change ==> r(p) == change[p]
    ensures forall p :: p !in change ==> r(p) == sel(p)
  {
    p => if p in change then change[p] else sel(p)
  }

  // ---------------------------------------------------------------------
  // String order: lexicographic over characters, as lodash's `<` on strings
  // ---------------------------------------------------------------------

  predicate StringLe(a: string, b: string)
  {
    a == [] || (b != [] && (a[0] < b[0] || (a[0] == b[0] && StringLe(a[1..], b[1..]))))
  }

  lemma {:induction false} StringLeTotal(a: string, b: string)
    ensures StringLe(a, b) || StringLe(b, a)
    decreases |a|
  {
    if a != [] && b != [] && a[0] == b[0] {
      StringLeTotal(a[1..], b[1..]);
    }
  }

  lemma {:induction false} StringLeTrans(a: string, b: string, c: string)
    requires StringLe(a, b) && StringLe(b, c)
    ensures StringLe(a, c)
    decreases |a|
  {
    if a != [] && a[0] == b[0] && b[0] == c[0] {
      StringLeTrans(a[1..], b[1..], c[1..]);
    }
  }

  lemma StringLeTotalPreorder()
    ensures TotalPreorder(StringLe)
  {
    forall a, b ensures StringLe(a, b) || StringLe(b, a) {
      StringLeTotal(a, b);
    }
    forall a, b, c | StringLe(a, b) && StringLe(b, c) ensures StringLe(a, c) {
      StringLeTrans(a, b, c);
    }
  }

  // ---------------------------------------------------------------------
  // Clicks and clear
  // ---------------------------------------------------------------------

  /** Every occurrence of `x` removed (lodash `without`). */
  function Without(s: seq<string>, x: string): (r: seq<string>)
    ensures forall y :: y in r <==> y in s && y != x
  {
    Filter(s, y => y != x)
  }

  /** The clicked item removed when it was selected, appended otherwise. */
  function Toggle(items: seq<string>, itemValue: string): (r: seq<string>)
    ensures itemValue in r <==> itemValue !in items
    ensures itemValue !in items ==> multiset(r)[itemValue] == 1
  {
    if itemValue in items then Without(items, itemValue) else items + [itemValue]
  }

  /** No other item is added, dropped or repeated. */
  lemma ToggleKeepsOthers(items: seq<string>, itemValue: string, x: string)
    requires x != itemValue
    ensures multiset(Toggle(items, itemValue))[x] == multiset(items)[x]
  {
    if itemValue in items {
      FilterCount(items, y => y != itemValue, x);
    }
  }

  /**
   * A click with the multiple-selection modifier: the clicked item is removed when it was
   * selected and added otherwise; the result is sorted.
   */
  function ToggleSorted(items: seq<string>, itemValue: string): (r: seq<string>)
    ensures Sorted(r, StringLe)
    ensures multiset(r) == multiset(Toggle(items, itemValue))
  {
    StringLeTotalPreorder();
    SortBy(Toggle(items, itemValue), StringLe)
  }

  /** The sorted toggle holds the clicked item exactly when the old list did not, and every other item as often as before. */
  lemma ToggleSortedContents(items: seq<string>, itemValue: string)
    ensures itemValue in ToggleSorted(items, itemValue) <==> itemValue !in items
    ensures itemValue !in items ==> multiset(ToggleSorted(items, itemValue))[itemValue] == 1
    ensures forall x :: x != itemValue ==> multiset(ToggleSorted(items, itemValue))[x] == multiset(items)[x]
  {
    var r := ToggleSorted(items, itemValue);
    assert itemValue in r <==> itemValue in multiset(r);
    forall x | x != itemValue ensures multiset(r)[x] == multiset(items)[x] {
      ToggleKeepsOthers(items, itemValue, x);
    }
  }

  /** A plain click: the clicked item alone, or nothing when it already was the only selection. */
  function SelectOnly(items: seq<string>, itemValue: string): (r: seq<string>)
    ensures r == [] <==> items == [itemValue]
    ensures r != [] ==> r == [itemValue]
  {
    if itemValue in items && |items| < 2 then [] else [itemValue]
  }

  function HandleItemClick(sel: Selection, prop: ValuesProp, itemValue: string, multiple: bool): (change: Change)
    ensures change.Keys == {prop}
  {
    if multiple then map[prop := ToggleSorted(sel(prop), itemValue)]
    else map[prop := SelectOnly(sel(prop), itemValue)]
  }

  /** A click changes the clicked key as its mode says and leaves every other key alone. */
  lemma ItemClickChangesOneKey(sel: Selection, prop: ValuesProp, itemValue: string, multiple: bool)
    ensures var sel' := Apply(sel, HandleItemClick(sel, prop, itemValue, multiple));
      && sel'(prop) == (if multiple then ToggleSorted(sel(prop), itemValue) else SelectOnly(sel(prop), itemValue))
      && forall p :: p != prop ==> sel'(p) == sel(p)
  {
  }

  function HandleClear(): (change: Change)
    ensures change.Keys == {Standards, OwaspTop10, OwaspTop10_2021, Cwe, SonarsourceSecurity}
  {
    map[Standards := [], OwaspTop10 := [], OwaspTop10_2021 := [], Cwe := [], SonarsourceSecurity := []]
  }

  /** After a clear, nothing is selected under any of the facet's keys. */
  lemma ClearEmptiesEveryKey(sel: Selection)
    ensures forall p :: Apply(sel, HandleClear())(p) == []
  {
    var change := HandleClear();
    forall p ensures Apply(sel, change)(p) == [] {
      assert p in change.Keys by {
        assert p == Standards || p == OwaspTop10 || p == OwaspTop10_2021 || p == Cwe || p == SonarsourceSecurity;
      }
    }
  }

  // ---------------------------------------------------------------------
  // Ordering of the categories
  // ---------------------------------------------------------------------

  /** One entry of a facet's statistics: a category and its number of rules. */
  datatype Stat = Stat(key: string, count: int)

  function Keys(stats: seq<Stat>): (r: seq<string>)
    ensures |r| == |stats|
    ensures forall i :: 0 <= i < |stats| ==> r[i] == stats[i].key
  {
    seq(|stats|, i requires 0 <= i < |stats| => stats[i].key)
  }

  /** Each category of a statistics object occurs once. */
  ghost predicate DistinctKeys(stats: seq<Stat>)
  {
    forall i, j :: 0 <= i < j < |stats| ==> stats[i].key != stats[j].key
  }

  /** Descending number of rules. */
  predicate ByCount(a: Stat, b: Stat)
  {
    a.count >= b.count
  }

  /** Descending number of rules, then ascending displayed name. */
  function ByCountThenName(name: string -> string): (le: (Stat, Stat) -> bool)
  {
    (a: Stat, b: Stat) => a.count > b.count || (a.count == b.count && StringLe(name(a.key), name(b.key)))
  }

  lemma ByCountTotalPreorder()
    ensures TotalPreorder(ByCount)
  {
  }

  lemma ByCountThenNameTotalPreorder(name: string -> string)
    ensures TotalPreorder(ByCountThenName(name))
  {
    var le := ByCountThenName(name);
    forall a, b ensures le(a, b) || le(b, a) {
      StringLeTotal(name(a.key), name(b.key));
    }
    forall a, b, c | le(a, b) && le(b, c) ensures le(a, c) {
      if a.count == b.count && b.count == c.count {
        StringLeTrans(name(a.key), name(b.key), name(c.key));
      }
    }
  }

  /** The OWASP categories, most rules first. */
  function OwaspOrder(stats: seq<Stat>): (r: seq<Stat>)
    ensures Sorted(r, ByCount)
    ensures multiset(r) == multiset(stats)
  {
    ByCountTotalPreorder();
    SortBy(stats, ByCount)
  }

  /** The SonarSource categories, most rules first and equal counts by displayed name. */
  function SonarSourceOrder(stats: seq<Stat>, name: string -> string): (r: seq<Stat>)
    ensures Sorted(r, ByCountThenName(name))
    ensures multiset(r) == multiset(stats)
  {
    ByCountThenNameTotalPreorder(name);
    SortBy(stats, ByCountThenName(name))
  }

  /** Categories with the same number of rules keep the order of the statistics, as lodash's stable `sortBy` keeps it. */
  lemma OwaspOrderStable(stats: seq<Stat>, y: Stat)
    ensures Ties(OwaspOrder(stats), ByCount, y) == Ties(stats, ByCount, y)
  {
    ByCountTotalPreorder();
    SortByStable(stats, ByCount, y);
  }

  /** Categories with the same number of rules and the same displayed name keep the order of the statistics. */
  lemma SonarSourceOrderStable(stats: seq<Stat>, name: string -> string, y: Stat)
    ensures Ties(SonarSourceOrder(stats, name), ByCountThenName(name), y) == Ties(stats, ByCountThenName(name), y)
  {
    ByCountThenNameTotalPreorder(name);
    SortByStable(stats, ByCountThenName(name), y);
  }

  /** What the OWASP lists render: a spinner until the statistics arrive, a note when there are none. */
  datatype OwaspList = Loading | NoResults | Categories(items: seq<string>)

  function OwaspListing(stats: Option<seq<Stat>>): (r: OwaspList)
    ensures stats.None? <==> r.Loading?
    ensures r.NoResults? <==> stats.Some? && stats.value == []
    ensures r.Categories? ==> r.items == Keys(OwaspOrder(stats.value))
  {
    match stats
    case None => Loading
    case Some(s) =>
      var categories := Keys(OwaspOrder(s));
      if categories == [] then NoResults else Categories(categories)
  }

  /** A permutation keeps a sequence of distinct keys distinct. */
  lemma SortedKeysDistinct(stats: seq<Stat>, r: seq<Stat>)
    requires DistinctKeys(stats)
    requires multiset(r) == multiset(stats)
    ensures Distinct(Keys(r))
  {
    forall i, j | 0 <= i < j < |r| ensures r[i].key != r[j].key {
      if r[i].key == r[j].key {
        var x, y := r[i], r[j];
        assert x in multiset(stats) && y in multiset(stats);
        var i', j' :| 0 <= i' < |stats| && stats[i'] == x && 0 <= j' < |stats| && stats[j'] == y;
        assert i' == j';
        TwoIndicesCount(r, i, j);
        TwoIndicesCountBound(stats, i');
        assert false;
      }
    }
  }

  /** Two positions holding the same value count twice. */
  lemma TwoIndicesCount<T>(s: seq<T>, i: nat, j: nat)
    requires i < j < |s| && s[i] == s[j]
    ensures multiset(s)[s[i]] >= 2
  {
    assert s == s[..j] + s[j..];
    assert s[i] in s[..j];
    assert s[j] in s[j..];
  }

  /** In a sequence of distinct keys, an entry occurs once. */
  lemma TwoIndicesCountBound(stats: seq<Stat>, i: nat)
    requires DistinctKeys(stats) && i < |stats|
    ensures multiset(stats)[stats[i]] == 1
  {
    var x := stats[i];
    assert stats == stats[..i] + [x] + stats[i + 1..];
    forall k | 0 <= k < |stats| && k != i ensures stats[k] != x {
      if k < i {
        assert stats[k].key != stats[i].key;
      } else {
        assert stats[i].key != stats[k].key;
      }
    }
    assert x !in stats[..i];
    assert x !in stats[i + 1..];
  }

  // ---------------------------------------------------------------------
  // Which SonarSource categories are shown
  // ---------------------------------------------------------------------

  const INITIAL_FACET_COUNT: nat := 15

  /** The "show more" footer: how many categories are shown, out of how many. */
  datatype Footer = Footer(count: nat, total: nat)

  datatype Display = Display(
    limitedList: seq<string>,
    selectedBelowLimit: seq<string>,
    allItemShown: bool,
    footer: Option<Footer>)

  function Shown(d: Display): seq<string>
  {
    d.limitedList + d.selectedBelowLimit
  }

  function Min(a: nat, b: nat): nat
  {
    if a < b then a else b
  }

  /**
   * The first fifteen categories, then every selected category below them in list order,
   * unless the list was expanded; the footer appears when something is hidden.
   */
  function SonarSourceDisplay(sortedItems: seq<string>, values: seq<string>, showFullList: bool): (d: Display)
    ensures showFullList ==> d.limitedList == sortedItems && d.selectedBelowLimit == []
    ensures !showFullList ==> d.limitedList == sortedItems[..Min(INITIAL_FACET_COUNT, |sortedItems|)]
    ensures !showFullList ==> forall x :: x in d.selectedBelowLimit <==>
      x in sortedItems[Min(INITIAL_FACET_COUNT, |sortedItems|)..] && x in values
    ensures d.footer.Some? <==> !d.allItemShown
  {
    var cut := Min(INITIAL_FACET_COUNT, |sortedItems|);
    var limitedList := if showFullList then sortedItems else sortedItems[..cut];
    var selectedBelowLimit := if showFullList then [] else Filter(sortedItems[cut..], item => item in values);
    var allItemShown := |limitedList| + |selectedBelowLimit| == |sortedItems|;
    Display(limitedList, selectedBelowLimit, allItemShown,
            if allItemShown then None else Some(Footer(|limitedList| + |selectedBelowLimit|, |sortedItems|)))
  }

  /** The SonarSource list: a spinner until the statistics arrive. */
  function SonarSourceListing(stats: Option<seq<Stat>>, values: seq<string>, showFullList: bool, name: string -> string): (r: Option<Display>)
    ensures r.None? <==> stats.None?
  {
    match stats
    case None => None
    case Some(s) => Some(SonarSourceDisplay(Keys(SonarSourceOrder(s, name)), values, showFullList))
  }

  /** The shown categories appear in list order, each taken from the list. */
  lemma {:induction false} DisplayKeepsOrder(sortedItems: seq<string>, values: seq<string>, showFullList: bool)
    ensures Subseq(Shown(SonarSourceDisplay(sortedItems, values, showFullList)), sortedItems)
  {
    var d := SonarSourceDisplay(sortedItems, values, showFullList);
    var cut := Min(INITIAL_FACET_COUNT, |sortedItems|);
    if showFullList {
      assert Shown(d) == sortedItems;
      SubseqRefl(sortedItems);
    } else {
      var rest := sortedItems[cut..];
      FilterSubseq(rest, item => item in values);
      SubseqPrefix(sortedItems[..cut], d.selectedBelowLimit, rest);
      assert sortedItems[..cut] + rest == sortedItems;
    }
  }

  /** Keeping a common prefix. */
  lemma {:induction false} SubseqPrefix<T>(p: seq<T>, a: seq<T>, b: seq<T>)
    requires Subseq(a, b)
    ensures Subseq(p + a, p + b)
    decreases |p|
  {
    if p != [] {
      SubseqPrefix(p[1..], a, b);
      SubseqCons(p[0], p[1..] + a, p[1..] + b);
      assert [p[0]] + (p[1..] + a) == p + a;
      assert [p[0]] + (p[1..] + b) == p + b;
    } else {
      assert p + a == a && p + b == b;
    }
  }

  /** Every selected category that has statistics is shown, and exactly once when the categories are distinct. */
  lemma DisplayShowsSelected(sortedItems: seq<string>, values: seq<string>, showFullList: bool, x: string)
    requires x in sortedItems && x in values
    ensures x in Shown(SonarSourceDisplay(sortedItems, values, showFullList))
    ensures multiset(Shown(SonarSourceDisplay(sortedItems, values, showFullList)))[x] == multiset(sortedItems)[x]
  {
    var d := SonarSourceDisplay(sortedItems, values, showFullList);
    var cut := Min(INITIAL_FACET_COUNT, |sortedItems|);
    if !showFullList {
      var rest := sortedItems[cut..];
      FilterCount(rest, item => item in values, x);
      assert sortedItems == sortedItems[..cut] + rest;
    }
    assert Shown(d) == d.limitedList + d.selectedBelowLimit;
  }

  /** With distinct categories, each selected category with statistics is shown exactly once. */
  lemma DisplayShowsSelectedOnce(sortedItems: seq<string>, values: seq<string>, showFullList: bool, x: string)
    requires Distinct(sortedItems)
    requires x in sortedItems && x in values
    ensures multiset(Shown(SonarSourceDisplay(sortedItems, values, showFullList)))[x] == 1
  {
    DisplayShowsSelected(sortedItems, values, showFullList, x);
    DistinctCount(sortedItems, x);
  }

  /**
   * Everything is shown exactly when the list is expanded or every category below the
   * first fifteen is selected, and then the display is the whole list.
   */
  lemma AllItemShownIff(sortedItems: seq<string>, values: seq<string>, showFullList: bool)
    ensures var d := SonarSourceDisplay(sortedItems, values, showFullList);
      d.allItemShown <==>
        showFullList || forall i :: INITIAL_FACET_COUNT <= i < |sortedItems| ==> sortedItems[i] in values
    ensures var d := SonarSourceDisplay(sortedItems, values, showFullList);
      d.allItemShown ==> Shown(d) == sortedItems
  {
    var d := SonarSourceDisplay(sortedItems, values, showFullList);
    if !showFullList {
      var cut := Min(INITIAL_FACET_COUNT, |sortedItems|);
      var rest := sortedItems[cut..];
      var p := item => item in values;
      FilterKeepsAll(rest, p);
      assert (forall i :: 0 <= i < |rest| ==> p(rest[i])) <==>
             (forall i :: INITIAL_FACET_COUNT <= i < |sortedItems| ==> sortedItems[i] in values) by {
        assert forall i :: cut <= i < |sortedItems| ==> sortedItems[i] == rest[i - cut];
      }
      if d.allItemShown {
        FilterKeepsAllEqual(rest, p);
        assert sortedItems[..cut] + rest == sortedItems;
      }
    }
  }

  /** Filtering that drops nothing gives the sequence back. */
  lemma {:induction false} FilterKeepsAllEqual<T(!new)>(s: seq<T>, p: T -> bool)
    requires |Filter(s, p)| == |s|
    ensures Filter(s, p) == s
    decreases |s|
  {
    if s != [] && p(s[0]) {
      FilterKeepsAllEqual(s[1..], p);
      assert s == [s[0]] + s[1..];
    }
  }

  /** The footer counts what is shown, which is less than the whole list. */
  lemma FooterCountBelowTotal(sortedItems: seq<string>, values: seq<string>, showFullList: bool)
    ensures var d := SonarSourceDisplay(sortedItems, values, showFullList);
      d.footer.Some? ==>
        d.footer.value.count == |Shown(d)| && d.footer.value.total == |sortedItems| &&
        d.footer.value.count < d.footer.value.total
  {
    var d := SonarSourceDisplay(sortedItems, values, showFullList);
    if !showFullList {
      var cut := Min(INITIAL_FACET_COUNT, |sortedItems|);
      assert |Filter(sortedItems[cut..], item => item in values)| <= |sortedItems| - cut;
    }
  }

  /**
   * On the page: once the statistics are in, each selected category that has statistics
   * is shown exactly once, whatever the list's state.
   */
  lemma ListingShowsSelectedOnce(stats: seq<Stat>, values: seq<string>, showFullList: bool, name: string -> string, x: string)
    requires DistinctKeys(stats)
    requires x in Keys(stats) && x in values
    ensures var d := SonarSourceListing(Some(stats), values, showFullList, name);
      d.Some? && multiset(Shown(d.value))[x] == 1
  {
    var sorted := SonarSourceOrder(stats, name);
    SortedKeysDistinct(stats, sorted);
    var k :| 0 <= k < |stats| && stats[k].key == x;
    assert stats[k] in multiset(sorted);
    var k' :| 0 <= k' < |sorted| && sorted[k'] == stats[k];
    assert Keys(sorted)[k'] == x;
    DisplayShowsSelectedOnce(Keys(sorted), values, showFullList, x);
  }
}

/**
 * What GraphQlSearchCriteria::build computes, as values.
 *
 * The helper keeps one piece of state across calls, the filter-group
 * builder's buffer of pending filters: addFilter appends to it and each
 * commit (setFilterGroups) drains it into one new filter group. The
 * functions below give, for a buffer and an argument bag, the criteria build
 * returns and the buffer it leaves behind; the class in criteria_helper.dfy
 * is proved to compute exactly these.
 *
 * Two collaborators are parameters: `toUtc`, the timezone service's
 * convertConfigTimeToUtc, and `isDate`, the date check. The class passes
 * Dates.IsDateValid for the latter, as the helper always calls its own
 * isDateValid; the facts proved here hold for any date check.
 */
module SearchCriteriaSpec {
  import opened Wrappers
  import Dates

  /** A filter value as GraphQL hands it over. */
  datatype Value = Str(s: string) | Int(i: int)

  datatype Filter = Filter(field: string, value: Value, conditionType: string)

  /** Filters committed together; the framework ORs them. */
  type FilterGroup = seq<Filter>

  datatype SortOrder = SortOrder(field: string, direction: string)

  /** The SearchCriteria record: groups are ANDed. */
  datatype Criteria = Criteria(
    filterGroups: seq<FilterGroup>,
    sortOrders: seq<SortOrder>,
    pageSize: Option<int>,
    currentPage: Option<int>)

  /** A fresh criteria object from the factory: nothing set. */
  const EmptyCriteria := Criteria([], [], None, None)

  // ---------------------------------------------------------- the arguments

  /** An optional argument that build uses only when it is a PHP array. */
  datatype ArrayArg<T> = Missing | NotAnArray | AnArray(entries: seq<T>)

  /** One `conditionType => value` pair of a field's filter. */
  datatype Condition = Condition(conditionType: string, value: Value)

  /** One `fieldName => [conditions]` entry of `filter`, in argument order. */
  datatype FieldFilter = FieldFilter(field: string, conditions: seq<Condition>)

  /** One `sortField => sortDirection` entry of `sort`. */
  datatype SortEntry = SortEntry(field: string, direction: string)

  datatype Args = Args(
    search: Option<string>,
    filter: ArrayArg<FieldFilter>,
    sort: ArrayArg<SortEntry>,
    pageSize: Option<int>,
    currentPage: Option<int>)

  /** `is_array($x) ? $x : []` */
  function Entries<T>(a: ArrayArg<T>): (es: seq<T>) {
    if a.AnArray? then a.entries else []
  }

  /** `isset($s) && !empty($s)`: PHP counts "" and "0" as empty. */
  predicate SearchRequested(search: Option<string>)
  {
    search.Some? && search.value != "" && search.value != "0"
  }

  // ------------------------------------------------------ filter contents

  function Wildcard(text: string): (w: string) {
    "%" + text + "%"
  }

  function NatText(n: nat): (t: string)
    decreases n
  {
    if n < 10 then [Dates.DigitChar(n)] else NatText(n / 10) + [Dates.DigitChar(n % 10)]
  }

  /** PHP's conversion of a value to string, as `.` performs it. */
  function Text(v: Value): (t: string) {
    match v
    case Str(s) => s
    case Int(i) => if i < 0 then "-" + NatText(-i) else NatText(i)
  }

  /** The `like` filters of a free-text search, one per column, in column order. */
  function SearchFilters(columns: seq<string>, term: string): (fs: seq<Filter>) {
    seq(|columns|, i requires 0 <= i < |columns| => Filter(columns[i], Str(Wildcard(term)), "like"))
  }

  /** One (field, conditionType, value) triple of `filter`. */
  datatype Entry = Entry(field: string, conditionType: string, value: Value)

  function FieldEntries(field: string, conditions: seq<Condition>): (es: seq<Entry>) {
    seq(|conditions|, k requires 0 <= k < |conditions| =>
      Entry(field, conditions[k].conditionType, conditions[k].value))
  }

  /** The triples of `filter` in the order the two nested foreach loops visit them. */
  function Flatten(fields: seq<FieldFilter>): (es: seq<Entry>)
    decreases |fields|
  {
    if fields == [] then []
    else
      var last := fields[|fields| - 1];
      Flatten(fields[..|fields| - 1]) + FieldEntries(last.field, last.conditions)
  }

  /**
   * The filter build adds for one triple: `like` wraps the value in
   * wildcards; any other condition converts a string the date check `isDate`
   * accepts to UTC with `toUtc` and keeps every other value.
   */
  function EntryFilter(e: Entry, toUtc: string -> string, isDate: string -> bool): (f: Filter)
    ensures f.field == e.field && f.conditionType == e.conditionType
    ensures f.value != e.value ==>
      e.conditionType == "like" || (e.value.Str? && isDate(e.value.s))
  {
    if e.conditionType == "like" then
      Filter(e.field, Str(Wildcard(Text(e.value))), e.conditionType)
    else if e.value.Str? && isDate(e.value.s) then
      Filter(e.field, Str(toUtc(e.value.s)), e.conditionType)
    else
      Filter(e.field, e.value, e.conditionType)
  }

  function EntryFilters(entries: seq<Entry>, toUtc: string -> string, isDate: string -> bool): (fs: seq<Filter>) {
    seq(|entries|, k requires 0 <= k < |entries| => EntryFilter(entries[k], toUtc, isDate))
  }

  // ------------------------------------------------------------ the passes

  /** The groups a pass commits and the buffer it leaves pending. */
  datatype Pass = Pass(groups: seq<FilterGroup>, pending: seq<Filter>)

  /** The search step: all column filters, then a single commit. */
  function SearchPass(pending: seq<Filter>, columns: seq<string>, search: Option<string>): (p: Pass)
    ensures |p.groups| == 1 <==> SearchRequested(search)
    ensures |p.groups| <= 1
    ensures p.pending == if SearchRequested(search) then [] else pending
  {
    if SearchRequested(search) then Pass([pending + SearchFilters(columns, search.value)], [])
    else Pass([], pending)
  }

  function Singletons(filters: seq<Filter>): (gs: seq<FilterGroup>) {
    seq(|filters|, k requires 0 <= k < |filters| => [filters[k]])
  }

  /**
   * The filter step from the helper state `from`: each filter is added to the
   * buffer and the buffer is committed at once, so a group holds whatever was
   * pending plus that filter.
   */
  function FilterPass(from: Pass, filters: seq<Filter>): (p: Pass)
    decreases |filters|
  {
    if filters == [] then from
    else
      var before := FilterPass(from, filters[..|filters| - 1]);
      Pass(before.groups + [before.pending + [filters[|filters| - 1]]], [])
  }

  /**
   * Build's inner foreach over the first n conditions of a field, from the
   * helper state `from` (groups committed so far and the buffer): each
   * condition's filter is added and committed at once.
   */
  function FieldPass(from: Pass, field: string, conditions: seq<Condition>, n: nat,
                     toUtc: string -> string, isDate: string -> bool): (p: Pass)
    requires n <= |conditions|
  {
    if n == 0 then from
    else
      var before := FieldPass(from, field, conditions, n - 1, toUtc, isDate);
      var c := conditions[n - 1];
      Pass(before.groups + [before.pending + [EntryFilter(Entry(field, c.conditionType, c.value), toUtc, isDate)]], [])
  }

  /** Build's outer foreach over the first n fields of `filter`, from the helper state `from`. */
  function FieldsPass(from: Pass, fields: seq<FieldFilter>, n: nat,
                      toUtc: string -> string, isDate: string -> bool): (p: Pass)
    requires n <= |fields|
  {
    if n == 0 then from
    else
      var before := FieldsPass(from, fields, n - 1, toUtc, isDate);
      FieldPass(before, fields[n - 1].field, fields[n - 1].conditions, |fields[n - 1].conditions|, toUtc, isDate)
  }

  /** The sort step: each entry replaces the whole sort list. */
  function SortPass(initial: seq<SortOrder>, sorts: seq<SortEntry>): (r: seq<SortOrder>)
    ensures sorts == [] ==> r == initial
    ensures sorts != [] ==>
      (|r| == 1 && r[0].field == sorts[|sorts| - 1].field && r[0].direction == sorts[|sorts| - 1].direction)
  {
    if sorts == [] then initial
    else [SortOrder(sorts[|sorts| - 1].field, sorts[|sorts| - 1].direction)]
  }

  /** What build returns, and the buffer it leaves in the helper. */
  datatype Outcome = Outcome(criteria: Criteria, pending: seq<Filter>)

  function BuildResult(pending: seq<Filter>, columns: seq<string>,
                       toUtc: string -> string, isDate: string -> bool, args: Args): (r: Outcome)
    ensures r.criteria.pageSize == args.pageSize && r.criteria.currentPage == args.currentPage
    ensures |r.criteria.sortOrders| <= 1
  {
    var search := SearchPass(pending, columns, args.search);
    var filters := FilterPass(search, EntryFilters(Flatten(Entries(args.filter)), toUtc, isDate));
    var criteria := Criteria(
      filters.groups,
      SortPass(EmptyCriteria.sortOrders, Entries(args.sort)),
      args.pageSize,
      args.currentPage);
    Outcome(criteria, filters.pending)
  }

  // ----------------------------------------------------------------- lemmas

  /** The filter step's groups: the first takes what was pending, every later one is its filter alone. */
  lemma FilterPassShape(pending: seq<Filter>, filters: seq<Filter>)
    ensures var p := FilterPass(Pass([], pending), filters);
      && |p.groups| == |filters|
      && p.pending == (if filters == [] then pending else [])
      && (filters != [] ==> p.groups[0] == pending + [filters[0]])
      && forall k :: 0 < k < |filters| ==> p.groups[k] == [filters[k]]
  {
    if filters != [] {
      FilterPassClosed(pending, filters);
      var p := FilterPass(Pass([], pending), filters);
      forall k | 0 < k < |filters| ensures p.groups[k] == [filters[k]] {
        assert p.groups[k] == Singletons(filters[1..])[k - 1];
      }
    }
  }

  lemma SingletonsAppend(a: seq<Filter>, b: seq<Filter>)
    ensures Singletons(a + b) == Singletons(a) + Singletons(b)
  {
    var l, r := Singletons(a + b), Singletons(a) + Singletons(b);
    assert |l| == |r|;
    forall k | 0 <= k < |l| ensures l[k] == r[k] {
      if k < |a| { assert (a + b)[k] == a[k]; } else { assert (a + b)[k] == b[k - |a|]; }
    }
  }

  lemma SingletonsOne(f: Filter)
    ensures Singletons([f]) == [[f]]
  {
    assert Singletons([f])[0] == [f];
  }

  /**
   * The closed form of the filter step: the first group takes what was
   * pending, every later group holds its filter alone, and nothing is left.
   */
  lemma {:induction false} FilterPassClosed(pending: seq<Filter>, filters: seq<Filter>)
    requires filters != []
    ensures FilterPass(Pass([], pending), filters) == Pass([pending + [filters[0]]] + Singletons(filters[1..]), [])
    decreases |filters|
  {
    var init, f := filters[..|filters| - 1], filters[|filters| - 1];
    if init == [] {
      assert filters[1..] == [];
      assert Singletons(filters[1..]) == [];
    } else {
      FilterPassClosed(pending, init);
      assert init[0] == filters[0];
      assert filters[1..] == init[1..] + [f];
      SingletonsAppend(init[1..], [f]);
      SingletonsOne(f);
      assert [] + [f] == [f];
      assert FilterPass(Pass([], pending), filters).groups == ([pending + [filters[0]]] + Singletons(init[1..])) + [[] + [f]];
    }
  }

  /** Committing one more filter: it joins what is pending and the buffer empties. */
  lemma FilterPassSnoc(from: Pass, filters: seq<Filter>, f: Filter)
    ensures var before := FilterPass(from, filters);
      FilterPass(from, filters + [f]) == Pass(before.groups + [before.pending + [f]], [])
  {
    assert (filters + [f])[..|filters|] == filters;
  }

  /** Filtering on a + b is filtering on a, then on b from the state a left. */
  lemma {:induction false} FilterPassAppend(from: Pass, a: seq<Filter>, b: seq<Filter>)
    ensures FilterPass(from, a + b) == FilterPass(FilterPass(from, a), b)
    decreases |b|
  {
    if b == [] {
      assert a + b == a;
    } else {
      var init, f := b[..|b| - 1], b[|b| - 1];
      assert b == init + [f];
      assert a + b == (a + init) + [f];
      FilterPassAppend(from, a, init);
      FilterPassSnoc(from, a + init, f);
      FilterPassSnoc(FilterPass(from, a), init, f);
    }
  }

  /** The filter step only appends: the groups committed before it stay in front, untouched. */
  lemma {:induction false} FilterPassPrefix(groups: seq<FilterGroup>, pending: seq<Filter>, filters: seq<Filter>)
    ensures var p := FilterPass(Pass([], pending), filters);
      FilterPass(Pass(groups, pending), filters) == Pass(groups + p.groups, p.pending)
    decreases |filters|
  {
    if filters == [] {
      assert groups + [] == groups;
    } else {
      var init, f := filters[..|filters| - 1], filters[|filters| - 1];
      FilterPassPrefix(groups, pending, init);
      var p := FilterPass(Pass([], pending), init);
      assert (groups + p.groups) + [p.pending + [f]] == groups + (p.groups + [p.pending + [f]]);
    }
  }

  lemma EntryFiltersAppend(a: seq<Entry>, b: seq<Entry>, toUtc: string -> string, isDate: string -> bool)
    ensures EntryFilters(a + b, toUtc, isDate) == EntryFilters(a, toUtc, isDate) + EntryFilters(b, toUtc, isDate)
  {
    var l, r := EntryFilters(a + b, toUtc, isDate), EntryFilters(a, toUtc, isDate) + EntryFilters(b, toUtc, isDate);
    assert |l| == |r|;
    forall k | 0 <= k < |l| ensures l[k] == r[k] {
      if k < |a| { assert (a + b)[k] == a[k]; } else { assert (a + b)[k] == b[k - |a|]; }
    }
  }

  lemma EntryFiltersSnoc(entries: seq<Entry>, e: Entry, toUtc: string -> string, isDate: string -> bool)
    ensures EntryFilters(entries + [e], toUtc, isDate) == EntryFilters(entries, toUtc, isDate) + [EntryFilter(e, toUtc, isDate)]
  {
    EntryFiltersAppend(entries, [e], toUtc, isDate);
    assert EntryFilters([e], toUtc, isDate) == [EntryFilter(e, toUtc, isDate)];
  }

  /** The triples of a field's first n conditions: those of the first n - 1, then the n-th. */
  lemma FieldEntriesSnoc(field: string, conditions: seq<Condition>, n: nat)
    requires 0 < n <= |conditions|
    ensures FieldEntries(field, conditions[..n])
         == FieldEntries(field, conditions[..n - 1]) + [Entry(field, conditions[n - 1].conditionType, conditions[n - 1].value)]
  {
  }

  /** The triples of the first i + 1 fields: those of the first i, then field i's. */
  lemma FlattenNext(fields: seq<FieldFilter>, i: nat)
    requires i < |fields|
    ensures Flatten(fields[..i + 1]) == Flatten(fields[..i]) + FieldEntries(fields[i].field, fields[i].conditions)
  {
    assert fields[..i + 1][..i] == fields[..i];
  }

  /** The inner foreach commits the field's triples as the filter step does. */
  lemma {:induction false} FieldPassFlat(from: Pass, field: string, conditions: seq<Condition>, n: nat,
                                         toUtc: string -> string, isDate: string -> bool)
    requires n <= |conditions|
    ensures FieldPass(from, field, conditions, n, toUtc, isDate)
         == FilterPass(from, EntryFilters(FieldEntries(field, conditions[..n]), toUtc, isDate))
  {
    if n == 0 {
      assert EntryFilters(FieldEntries(field, conditions[..0]), toUtc, isDate) == [];
    } else {
      FieldPassFlat(from, field, conditions, n - 1, toUtc, isDate);
      var seen := FieldEntries(field, conditions[..n - 1]);
      var entry := Entry(field, conditions[n - 1].conditionType, conditions[n - 1].value);
      FieldEntriesSnoc(field, conditions, n);
      EntryFiltersSnoc(seen, entry, toUtc, isDate);
      FilterPassSnoc(from, EntryFilters(seen, toUtc, isDate), EntryFilter(entry, toUtc, isDate));
    }
  }

  /** The inner foreach over all of a field's conditions. */
  lemma FieldPassWhole(from: Pass, field: string, conditions: seq<Condition>,
                       toUtc: string -> string, isDate: string -> bool)
    ensures FieldPass(from, field, conditions, |conditions|, toUtc, isDate)
         == FilterPass(from, EntryFilters(FieldEntries(field, conditions), toUtc, isDate))
  {
    FieldPassFlat(from, field, conditions, |conditions|, toUtc, isDate);
    assert conditions[..|conditions|] == conditions;
  }

  /** The filters of the first n fields: those of the first n - 1, then the n-th field's. */
  lemma FlattenNextFilters(fields: seq<FieldFilter>, n: nat, toUtc: string -> string, isDate: string -> bool)
    requires 0 < n <= |fields|
    ensures EntryFilters(Flatten(fields[..n]), toUtc, isDate)
         == EntryFilters(Flatten(fields[..n - 1]), toUtc, isDate)
          + EntryFilters(FieldEntries(fields[n - 1].field, fields[n - 1].conditions), toUtc, isDate)
  {
    FlattenNext(fields, n - 1);
    EntryFiltersAppend(Flatten(fields[..n - 1]), FieldEntries(fields[n - 1].field, fields[n - 1].conditions), toUtc, isDate);
  }

  /** Committing field by field is committing all triples of `filter` in iteration order. */
  lemma {:induction false} FieldsPassFlat(from: Pass, fields: seq<FieldFilter>, n: nat,
                                          toUtc: string -> string, isDate: string -> bool)
    requires n <= |fields|
    ensures FieldsPass(from, fields, n, toUtc, isDate) == FilterPass(from, EntryFilters(Flatten(fields[..n]), toUtc, isDate))
  {
    if n == 0 {
      assert EntryFilters(Flatten(fields[..0]), toUtc, isDate) == [];
    } else {
      FieldsPassFlat(from, fields, n - 1, toUtc, isDate);
      var ff := fields[n - 1];
      var before := FieldsPass(from, fields, n - 1, toUtc, isDate);
      var seen, next := Flatten(fields[..n - 1]), FieldEntries(ff.field, ff.conditions);
      FieldPassWhole(before, ff.field, ff.conditions, toUtc, isDate);
      FlattenNextFilters(fields, n, toUtc, isDate);
      FilterPassAppend(from, EntryFilters(seen, toUtc, isDate), EntryFilters(next, toUtc, isDate));
    }
  }

  /** The triples of consecutive field lists are concatenated in order. */
  lemma {:induction false} FlattenAppend(a: seq<FieldFilter>, b: seq<FieldFilter>)
    ensures Flatten(a + b) == Flatten(a) + Flatten(b)
    decreases |b|
  {
    if b != [] {
      var last := b[|b| - 1];
      assert (a + b)[..|a + b| - 1] == a + b[..|b| - 1];
      FlattenAppend(a, b[..|b| - 1]);
    } else {
      assert a + b == a;
    }
  }

  /** A single field contributes its conditions, in order, with its own name. */
  lemma FlattenOne(ff: FieldFilter)
    ensures |Flatten([ff])| == |ff.conditions|
    ensures forall k :: 0 <= k < |ff.conditions| ==>
      Flatten([ff])[k] == Entry(ff.field, ff.conditions[k].conditionType, ff.conditions[k].value)
  {
    assert [ff][..0] == [];
  }

  /**
   * With nothing pending beforehand, build's groups are: one search group
   * holding every column's `like` filter (only when a search term is set and
   * non-empty), then one single-filter group per triple of `filter`, in
   * iteration order; nothing is left pending once anything was committed.
   */
  lemma {:induction false} BuildGroups(columns: seq<string>,
                                       toUtc: string -> string, isDate: string -> bool, args: Args)
    ensures var r := BuildResult([], columns, toUtc, isDate, args);
      var entries := Flatten(Entries(args.filter));
      var search := if SearchRequested(args.search) then [SearchFilters(columns, args.search.value)] else [];
      && r.criteria.filterGroups == search + Singletons(EntryFilters(entries, toUtc, isDate))
      && r.pending == []
  {
    var entries := Flatten(Entries(args.filter));
    var fs := EntryFilters(entries, toUtc, isDate);
    var sp := SearchPass([], columns, args.search);
    var search := if SearchRequested(args.search) then [SearchFilters(columns, args.search.value)] else [];
    assert sp.groups == search && sp.pending == [] by {
      if SearchRequested(args.search) {
        assert [] + SearchFilters(columns, args.search.value) == SearchFilters(columns, args.search.value);
      }
    }
    var fp := FilterPass(Pass([], []), fs);
    assert fp.groups == Singletons(fs) && fp.pending == [] by {
      if fs != [] {
        FilterPassClosed([], fs);
        assert fs == [fs[0]] + fs[1..];
        SingletonsAppend([fs[0]], fs[1..]);
        SingletonsOne(fs[0]);
        assert [] + [fs[0]] == [fs[0]];
      } else {
        assert Singletons(fs) == [];
      }
    }
    FilterPassPrefix(search, [], fs);
    assert BuildResult([], columns, toUtc, isDate, args).criteria.filterGroups == search + fp.groups;
  }

  /** The search group: exactly one `like` filter per column, in column order, on `%term%`. */
  lemma SearchGroupShape(columns: seq<string>, toUtc: string -> string, isDate: string -> bool, args: Args)
    requires SearchRequested(args.search)
    ensures var groups := BuildResult([], columns, toUtc, isDate, args).criteria.filterGroups;
      && |groups| >= 1
      && |groups[0]| == |columns|
      && forall i :: 0 <= i < |columns| ==>
           groups[0][i] == Filter(columns[i], Str("%" + args.search.value + "%"), "like")
  {
    var term := args.search.value;
    var sf := SearchFilters(columns, term);
    var rest := Singletons(EntryFilters(Flatten(Entries(args.filter)), toUtc, isDate));
    BuildGroups(columns, toUtc, isDate, args);
    var groups := BuildResult([], columns, toUtc, isDate, args).criteria.filterGroups;
    assert groups == [sf] + rest;
    assert groups[0] == sf;
    forall i | 0 <= i < |columns| ensures sf[i] == Filter(columns[i], Str("%" + term + "%"), "like") {
      assert sf[i] == Filter(columns[i], Str(Wildcard(term)), "like");
    }
  }

  /** Without a usable search term there is no search group. */
  lemma NoSearchGroup(columns: seq<string>, toUtc: string -> string, isDate: string -> bool, args: Args)
    requires !SearchRequested(args.search)
    ensures var groups := BuildResult([], columns, toUtc, isDate, args).criteria.filterGroups;
      var entries := Flatten(Entries(args.filter));
      |groups| == |entries| && forall k :: 0 <= k < |entries| ==> groups[k] == [EntryFilter(entries[k], toUtc, isDate)]
  {
    BuildGroups(columns, toUtc, isDate, args);
  }

  /**
   * Each triple of `filter` gets a group of its own, holding one filter on
   * that field and condition, placed after the search group in iteration order.
   */
  lemma FilterGroupShape(columns: seq<string>, toUtc: string -> string, isDate: string -> bool, args: Args, k: nat)
    requires k < |Flatten(Entries(args.filter))|
    ensures var e := Flatten(Entries(args.filter))[k];
      var offset := if SearchRequested(args.search) then 1 else 0;
      var groups := BuildResult([], columns, toUtc, isDate, args).criteria.filterGroups;
      && offset + k < |groups|
      && |groups[offset + k]| == 1
      && groups[offset + k][0].field == e.field
      && groups[offset + k][0].conditionType == e.conditionType
  {
    BuildGroups(columns, toUtc, isDate, args);
  }

  /** A `like` value is wrapped in wildcards and never date-converted, whatever it looks like. */
  lemma LikeIsWrapped(e: Entry, toUtc: string -> string, isDate: string -> bool)
    requires e.conditionType == "like"
    ensures EntryFilter(e, toUtc, isDate).value == Str("%" + Text(e.value) + "%")
  {
  }

  /** Other conditions convert a valid date string to UTC and keep everything else. */
  lemma OtherConditionValue(e: Entry, toUtc: string -> string, isDate: string -> bool)
    requires e.conditionType != "like"
    ensures e.value.Str? && isDate(e.value.s) ==> EntryFilter(e, toUtc, isDate).value == Str(toUtc(e.value.s))
    ensures !(e.value.Str? && isDate(e.value.s)) ==> EntryFilter(e, toUtc, isDate).value == e.value
  {
  }

  /** Sorting is last-write-wins: earlier entries never matter once a later one exists. */
  lemma SortLastWins(initial: seq<SortOrder>, earlier: seq<SortEntry>, later: seq<SortEntry>)
    requires later != []
    ensures SortPass(initial, earlier + later) == SortPass(initial, later)
    ensures SortPass(initial, later) == [SortOrder(later[|later| - 1].field, later[|later| - 1].direction)]
  {
    assert (earlier + later)[|earlier + later| - 1] == later[|later| - 1];
  }

  /** A non-array `filter` or `sort` is the same as an absent or empty one. */
  lemma NonArrayIsEmpty(pending: seq<Filter>, columns: seq<string>,
                        toUtc: string -> string, isDate: string -> bool, args: Args)
    ensures BuildResult(pending, columns, toUtc, isDate, args.(filter := NotAnArray))
         == BuildResult(pending, columns, toUtc, isDate, args.(filter := Missing))
         == BuildResult(pending, columns, toUtc, isDate, args.(filter := AnArray([])))
    ensures BuildResult(pending, columns, toUtc, isDate, args.(sort := NotAnArray))
         == BuildResult(pending, columns, toUtc, isDate, args.(sort := Missing))
         == BuildResult(pending, columns, toUtc, isDate, args.(sort := AnArray([])))
  {
  }

  /** With no sort entries the fresh criteria's (empty) sort list is left alone. */
  lemma NoSortKeepsDefault(pending: seq<Filter>, columns: seq<string>,
                           toUtc: string -> string, isDate: string -> bool, args: Args)
    requires Entries(args.sort) == []
    ensures BuildResult(pending, columns, toUtc, isDate, args).criteria.sortOrders == EmptyCriteria.sortOrders
  {
  }
}

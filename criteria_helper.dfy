/**
 * The search-criteria helper as the object it is: GraphQlSearchCriteria holds
 * the filter-group builder's pending filters and the searchable columns, and
 * its methods update those and the SearchCriteria object they are given, step
 * by step. Build is proved to compute exactly SearchCriteriaSpec.BuildResult.
 *
 * The framework's FilterGroupBuilder::create() is taken to return the pending
 * filters and empty the buffer (the helper relies on this so that each group
 * holds only the filters added since the previous commit).
 */
module SearchCriteriaHelper {
  import opened Wrappers
  import opened SearchCriteriaSpec
  import Dates

  /** The framework's SearchCriteria object, which the helper fills in place. */
  class SearchCriteria {
    var filterGroups: seq<FilterGroup>
    var sortOrders: seq<SortOrder>
    var pageSize: Option<int>
    var currentPage: Option<int>

    /** SearchCriteriaFactory::create(): nothing set yet. */
    constructor ()
      ensures Snapshot() == EmptyCriteria
    {
      filterGroups := [];
      sortOrders := [];
      pageSize := None;
      currentPage := None;
    }

    /** The record this object currently holds. */
    function Snapshot(): (c: Criteria)
      reads this
    {
      Criteria(filterGroups, sortOrders, pageSize, currentPage)
    }
  }

  class GraphQlSearchCriteria {
    /** The filter-group builder's buffer: filters added since the last commit. */
    var pending: seq<Filter>
    /** The fields a free-text search looks in. */
    var columns: seq<string>
    /** TimezoneInterface::convertConfigTimeToUtc, from store time to UTC. */
    const toUtc: string -> string

    constructor (toUtc: string -> string)
      ensures pending == [] && columns == [] && this.toUtc == toUtc
    {
      pending := [];
      columns := [];
      this.toUtc := toUtc;
    }

    /** getSearchCriteria: a fresh, empty criteria object. */
    method GetSearchCriteria() returns (sc: SearchCriteria)
      ensures fresh(sc) && sc.Snapshot() == EmptyCriteria
    {
      sc := new SearchCriteria();
    }

    /** addFilter: build one filter and put it in the pending buffer. */
    method AddFilter(field: string, value: Value, conditionType: string)
      modifies this`pending
      ensures pending == old(pending) + [Filter(field, value, conditionType)]
    {
      var filter := Filter(field, value, conditionType);
      pending := pending + [filter];
    }

    /**
     * setFilterGroups: keep every existing group, in order, and append one
     * group made of the pending filters, which the commit drains; nothing
     * else in the criteria changes.
     */
    method SetFilterGroups(sc: SearchCriteria)
      modifies this`pending, sc`filterGroups
      ensures sc.filterGroups == old(sc.filterGroups) + [old(pending)]
      ensures pending == []
      ensures sc.sortOrders == old(sc.sortOrders)
      ensures sc.pageSize == old(sc.pageSize) && sc.currentPage == old(sc.currentPage)
    {
      var groups := sc.filterGroups;
      var group := pending;
      pending := [];
      groups := groups + [group];
      sc.filterGroups := groups;
    }

    /** addOptionalFilter: add one filter and commit at once. */
    method AddOptionalFilter(field: string, value: Value, conditionType: string, sc: SearchCriteria)
      modifies this`pending, sc`filterGroups
      ensures sc.filterGroups == old(sc.filterGroups) + [old(pending) + [Filter(field, value, conditionType)]]
      ensures pending == []
      ensures sc.sortOrders == old(sc.sortOrders)
      ensures sc.pageSize == old(sc.pageSize) && sc.currentPage == old(sc.currentPage)
    {
      AddFilter(field, value, conditionType);
      SetFilterGroups(sc);
    }

    /** addSortOrder: replace the whole sort list with this one order. */
    method AddSortOrder(sc: SearchCriteria, sortField: string, sortDirection: string)
      modifies sc`sortOrders
      ensures sc.sortOrders == [SortOrder(sortField, sortDirection)]
      ensures sc.filterGroups == old(sc.filterGroups)
    {
      var order := SortOrder(sortField, sortDirection);
      sc.sortOrders := [order];
    }

    /** setColumns: what getColumns gives back afterwards. */
    method SetColumns(cs: seq<string>)
      modifies this`columns
      ensures GetColumns() == cs
      ensures pending == old(pending)
    {
      columns := cs;
    }

    /** getColumns: the columns last set, in the order they were given. */
    function GetColumns(): (cs: seq<string>)
      reads this
    {
      columns
    }

    /** The search part of build: every column's `like` filter, then one commit. */
    method CommitSearch(sc: SearchCriteria, term: string)
      modifies this`pending, sc`filterGroups
      ensures sc.filterGroups == old(sc.filterGroups) + [old(pending) + SearchFilters(columns, term)]
      ensures pending == []
    {
      var cols := GetColumns();
      ghost var wanted := SearchFilters(cols, term);
      ghost var start := pending;
      var i := 0;
      while i < |cols|
        invariant 0 <= i <= |cols|
        invariant pending == start + wanted[..i]
        invariant sc.filterGroups == old(sc.filterGroups)
      {
        AddFilter(cols[i], Str(Wildcard(term)), "like");
        assert wanted[..i + 1] == wanted[..i] + [wanted[i]];
        i := i + 1;
      }
      assert wanted[..i] == wanted;
      SetFilterGroups(sc);
    }

    /** One pass of build's inner filter loop: the filter for the j-th triple, committed on its own. */
    method CommitCondition(sc: SearchCriteria, fieldName: string, conditions: seq<Condition>, j: nat, ghost from: Pass)
      requires j < |conditions|
      requires Pass(sc.filterGroups, pending) == FieldPass(from, fieldName, conditions, j, toUtc, Dates.IsDateValid)
      modifies this`pending, sc`filterGroups
      ensures Pass(sc.filterGroups, pending) == FieldPass(from, fieldName, conditions, j + 1, toUtc, Dates.IsDateValid)
    {
      var conditionType, value := conditions[j].conditionType, conditions[j].value;
      if conditionType == "like" {
        AddFilter(fieldName, Str(Wildcard(Text(value))), conditionType);
        SetFilterGroups(sc);
      } else {
        var v := value;
        if v.Str? && Dates.IsDateValid(v.s) {
          v := Str(toUtc(v.s));
        }
        AddFilter(fieldName, v, conditionType);
        SetFilterGroups(sc);
      }
    }

    /** Build's inner filter loop over one field's conditions. */
    method CommitField(sc: SearchCriteria, fieldName: string, conditions: seq<Condition>)
      modifies this`pending, sc`filterGroups
      ensures Pass(sc.filterGroups, pending)
           == FieldPass(Pass(old(sc.filterGroups), old(pending)), fieldName, conditions, |conditions|,
                        toUtc, Dates.IsDateValid)
    {
      ghost var from := Pass(sc.filterGroups, pending);
      var j := 0;
      while j < |conditions|
        invariant 0 <= j <= |conditions|
        invariant Pass(sc.filterGroups, pending) == FieldPass(from, fieldName, conditions, j, toUtc, Dates.IsDateValid)
      {
        CommitCondition(sc, fieldName, conditions, j, from);
        j := j + 1;
      }
    }

    /** Build's outer filter loop, over the fields of `filter` in order. */
    method CommitFilters(sc: SearchCriteria, fields: seq<FieldFilter>)
      modifies this`pending, sc`filterGroups
      ensures Pass(sc.filterGroups, pending)
           == FieldsPass(Pass(old(sc.filterGroups), old(pending)), fields, |fields|, toUtc, Dates.IsDateValid)
    {
      ghost var from := Pass(sc.filterGroups, pending);
      var i := 0;
      while i < |fields|
        invariant 0 <= i <= |fields|
        invariant Pass(sc.filterGroups, pending) == FieldsPass(from, fields, i, toUtc, Dates.IsDateValid)
      {
        CommitField(sc, fields[i].field, fields[i].conditions);
        i := i + 1;
      }
    }

    /** Build's sort loop: each entry overwrites the list. */
    method ApplySorts(sc: SearchCriteria, sorts: seq<SortEntry>)
      modifies sc`sortOrders
      ensures sc.sortOrders == SortPass(old(sc.sortOrders), sorts)
    {
      var k := 0;
      while k < |sorts|
        invariant 0 <= k <= |sorts|
        invariant sc.sortOrders == SortPass(old(sc.sortOrders), sorts[..k])
      {
        AddSortOrder(sc, sorts[k].field, sorts[k].direction);
        assert sorts[..k + 1][k] == sorts[k];
        k := k + 1;
      }
      assert sorts[..k] == sorts;
    }

    /**
     * build: the criteria for an argument bag, and the buffer it leaves
     * behind, are those BuildResult gives for the buffer found on entry.
     */
    method Build(args: Args) returns (sc: SearchCriteria)
      modifies this`pending
      ensures fresh(sc)
      ensures sc.Snapshot() == BuildResult(old(pending), columns, toUtc, Dates.IsDateValid, args).criteria
      ensures pending == BuildResult(old(pending), columns, toUtc, Dates.IsDateValid, args).pending
    {
      ghost var start := pending;
      ghost var expected := BuildResult(start, columns, toUtc, Dates.IsDateValid, args);
      sc := new SearchCriteria();
      ghost var searched := SearchPass(start, columns, args.search);
      if SearchRequested(args.search) {
        CommitSearch(sc, args.search.value);
      }
      assert sc.filterGroups == searched.groups && pending == searched.pending;
      CommitFilters(sc, Entries(args.filter));
      FieldsPassFlat(searched, Entries(args.filter), |Entries(args.filter)|, toUtc, Dates.IsDateValid);
      assert Entries(args.filter)[..|Entries(args.filter)|] == Entries(args.filter);
      ghost var filtered := FilterPass(searched, EntryFilters(Flatten(Entries(args.filter)), toUtc, Dates.IsDateValid));
      assert sc.filterGroups == expected.criteria.filterGroups == filtered.groups;
      assert pending == expected.pending == filtered.pending;
      ApplySorts(sc, Entries(args.sort));
      assert sc.sortOrders == expected.criteria.sortOrders;
      sc.pageSize := args.pageSize;
      sc.currentPage := args.currentPage;
    }
  }
}

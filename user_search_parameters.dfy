/**
 * CmsUserSearchParameters: the search criteria for retrieving users, a
 * record of fields each set by its own setter. Groups and organizational
 * units are referred to by name; a null reference is None.
 */
module UserSearchParameters {
  import opened Util

  /** The columns the results can be sorted by. */
  datatype SortKey = Activated | Email | FullName | LastLogin | LoginName | OrgUnitColumn

  /** The columns the search term is matched against. */
  datatype SearchKey = SearchFullName | SearchEmail | SearchOrgUnit

  /** A CmsGroup, by name. */
  datatype Group = Group(name: string)

  /** A CmsOrganizationalUnit, by name. */
  datatype OrgUnit = OrgUnit(name: string)

  /** Every field of the search parameters at one moment. */
  datatype Criteria = Criteria(
    searchKeys: set<SearchKey>,
    ascending: bool,
    page: int,
    pageSize: int,
    searchFilter: Option<string>,
    flags: int,
    sortKey: Option<SortKey>,
    group: Option<Group>,
    notGroup: Option<Group>,
    orgUnit: Option<OrgUnit>,
    recursiveOrgUnits: bool,
    filterByGroupOu: bool,
    anyGroups: Option<seq<Group>>,
    notAnyGroups: Option<seq<Group>>,
    filterCore: bool,
    allowedOus: Option<seq<OrgUnit>>)

  /** A newly created object: page size -1, page 0, no search keys, every flag false, every reference null. */
  function Defaults(): Criteria {
    Criteria({}, false, 0, -1, None, 0, None, None, None, None, false, false, None, None, false, None)
  }

  /** What addSearch does to the criteria. */
  function AddSearchKey(c: Criteria, key: SearchKey): (r: Criteria)
    ensures r.searchKeys == c.searchKeys + {key}
    ensures r.(searchKeys := c.searchKeys) == c
  {
    c.(searchKeys := c.searchKeys + {key})
  }

  /** Adding the same key twice is the same as adding it once. */
  lemma AddSearchIdempotent(c: Criteria, key: SearchKey)
    ensures AddSearchKey(AddSearchKey(c, key), key) == AddSearchKey(c, key)
  {
  }

  /** The order in which keys are added does not matter. */
  lemma AddSearchCommutes(c: Criteria, a: SearchKey, b: SearchKey)
    ensures AddSearchKey(AddSearchKey(c, a), b) == AddSearchKey(AddSearchKey(c, b), a)
  {
  }

  /** What setPaging does: both paging fields at once, nothing else. */
  function WithPaging(c: Criteria, pageSize: int, page: int): (r: Criteria)
    ensures r.pageSize == pageSize && r.page == page
    ensures r.(pageSize := c.pageSize, page := c.page) == c
  {
    c.(pageSize := pageSize, page := page)
  }

  /** A later setPaging overrides an earlier one completely. */
  lemma WithPagingOverrides(c: Criteria, s1: int, p1: int, s2: int, p2: int)
    ensures WithPaging(WithPaging(c, s1, p1), s2, p2) == WithPaging(c, s2, p2)
  {
  }

  /** What setSorting does: the key and the order at once, nothing else. */
  function WithSorting(c: Criteria, key: Option<SortKey>, ascending: bool): (r: Criteria)
    ensures r.sortKey == key && r.ascending == ascending
    ensures r.(sortKey := c.sortKey, ascending := c.ascending) == c
  {
    c.(sortKey := key, ascending := ascending)
  }

  /** Setting the paging and setting the sorting do not interfere. */
  lemma PagingAndSortingCommute(c: Criteria, pageSize: int, page: int, key: Option<SortKey>, ascending: bool)
    ensures WithSorting(WithPaging(c, pageSize, page), key, ascending)
            == WithPaging(WithSorting(c, key, ascending), pageSize, page)
  {
  }

  class SearchParameters {
    var searchKeys: set<SearchKey>
    var ascending: bool
    var page: int
    var pageSize: int
    var searchFilter: Option<string>
    var flags: int
    var sortKey: Option<SortKey>
    var group: Option<Group>
    var notGroup: Option<Group>
    var orgUnit: Option<OrgUnit>
    var recursiveOrgUnits: bool
    var filterByGroupOu: bool
    var anyGroups: Option<seq<Group>>
    var notAnyGroups: Option<seq<Group>>
    var filterCore: bool
    var allowedOus: Option<seq<OrgUnit>>

    function Value(): Criteria
      reads this
    {
      Criteria(searchKeys, ascending, page, pageSize, searchFilter, flags, sortKey, group, notGroup,
               orgUnit, recursiveOrgUnits, filterByGroupOu, anyGroups, notAnyGroups, filterCore, allowedOus)
    }

    constructor ()
      ensures Value() == Defaults()
    {
      searchKeys := {};
      ascending := false;
      page := 0;
      pageSize := -1;
      searchFilter := None;
      flags := 0;
      sortKey := None;
      group := None;
      notGroup := None;
      orgUnit := None;
      recursiveOrgUnits := false;
      filterByGroupOu := false;
      anyGroups := None;
      notAnyGroups := None;
      filterCore := false;
      allowedOus := None;
    }

    function GetSearchKeys(): set<SearchKey> reads this { searchKeys }
    function IsAscending(): bool reads this { ascending }
    function GetPage(): int reads this { page }
    function GetPageSize(): int reads this { pageSize }
    function GetSearchFilter(): Option<string> reads this { searchFilter }
    function GetFlags(): int reads this { flags }
    function GetSortKey(): Option<SortKey> reads this { sortKey }
    function GetGroup(): Option<Group> reads this { group }
    function GetNotGroup(): Option<Group> reads this { notGroup }
    function GetOrganizationalUnit(): Option<OrgUnit> reads this { orgUnit }
    function RecursiveOrgUnits(): bool reads this { recursiveOrgUnits }
    function IsFilterByGroupOu(): bool reads this { filterByGroupOu }
    function GetAnyGroups(): Option<seq<Group>> reads this { anyGroups }
    function GetNotAnyGroups(): Option<seq<Group>> reads this { notAnyGroups }
    function IsFilterCore(): bool reads this { filterCore }
    function GetAllowedOus(): Option<seq<OrgUnit>> reads this { allowedOus }

    method AddSearch(key: SearchKey)
      modifies this
      ensures key in GetSearchKeys()
      ensures Value() == AddSearchKey(old(Value()), key)
    {
      searchKeys := searchKeys + {key};
    }

    method SetPaging(pageSize: int, page: int)
      modifies this
      ensures GetPageSize() == pageSize && GetPage() == page
      ensures Value() == WithPaging(old(Value()), pageSize, page)
    {
      this.pageSize := pageSize;
      this.page := page;
    }

    method SetSorting(key: Option<SortKey>, ascending: bool)
      modifies this
      ensures GetSortKey() == key && IsAscending() == ascending
      ensures Value() == WithSorting(old(Value()), key, ascending)
    {
      sortKey := key;
      this.ascending := ascending;
    }

    method SetFlags(flags: int)
      modifies this
      ensures GetFlags() == flags
      ensures Value() == old(Value()).(flags := flags)
    {
      this.flags := flags;
    }

    method SetSearchFilter(searchFilter: Option<string>)
      modifies this
      ensures GetSearchFilter() == searchFilter
      ensures Value() == old(Value()).(searchFilter := searchFilter)
    {
      this.searchFilter := searchFilter;
    }

    method SetRecursiveOrgUnits(recursive: bool)
      modifies this
      ensures RecursiveOrgUnits() == recursive
      ensures Value() == old(Value()).(recursiveOrgUnits := recursive)
    {
      recursiveOrgUnits := recursive;
    }

    method SetFilterCore(filterCore: bool)
      modifies this
      ensures IsFilterCore() == filterCore
      ensures Value() == old(Value()).(filterCore := filterCore)
    {
      this.filterCore := filterCore;
    }

    method SetFilterByGroupOu(filterByGroupOu: bool)
      modifies this
      ensures IsFilterByGroupOu() == filterByGroupOu
      ensures Value() == old(Value()).(filterByGroupOu := filterByGroupOu)
    {
      this.filterByGroupOu := filterByGroupOu;
    }

    method SetGroup(group: Option<Group>)
      modifies this
      ensures GetGroup() == group
      ensures Value() == old(Value()).(group := group)
    {
      this.group := group;
    }

    method SetNotGroup(group: Option<Group>)
      modifies this
      ensures GetNotGroup() == group
      ensures Value() == old(Value()).(notGroup := group)
    {
      notGroup := group;
    }

    method SetOrganizationalUnit(ou: Option<OrgUnit>)
      modifies this
      ensures GetOrganizationalUnit() == ou
      ensures Value() == old(Value()).(orgUnit := ou)
    {
      orgUnit := ou;
    }

    method SetAnyGroups(anyGroups: Option<seq<Group>>)
      modifies this
      ensures GetAnyGroups() == anyGroups
      ensures Value() == old(Value()).(anyGroups := anyGroups)
    {
      this.anyGroups := anyGroups;
    }

    method SetNotAnyGroups(groups: Option<seq<Group>>)
      modifies this
      ensures GetNotAnyGroups() == groups
      ensures Value() == old(Value()).(notAnyGroups := groups)
    {
      notAnyGroups := groups;
    }

    method SetAllowedOus(ous: Option<seq<OrgUnit>>)
      modifies this
      ensures GetAllowedOus() == ous
      ensures Value() == old(Value()).(allowedOus := ous)
    {
      allowedOus := ous;
    }
  }
}

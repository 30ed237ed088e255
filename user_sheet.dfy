/**
 * The admin user table (`components/sheets/UserSheet.tsx`): search, role
 * and status filters, a chosen page size, and the page state its handlers
 * change.
 */
module UserSheet {
  import opened Strings
  import opened Seqs
  import opened Types
  import opened Pagination
  import opened Numbers

  /**
   * `matchSearch`: the lower-cased query in the lower-cased full name, email
   * or username, or the query as typed in the phone number.
   */
  predicate SearchHit(query: string, u: User)
  {
    var q := ToLower(query);
    Contains(ToLower(u.fullName), q) || Contains(ToLower(u.email), q)
    || Contains(u.phone, query) || Contains(ToLower(u.username), q)
  }

  /** A role or status filter: "ALL" or the exact value. */
  predicate RoleMatches(role: string, u: User)
  {
    role == "ALL" || UserRoleName(u.role) == role
  }

  predicate StatusMatches(status: string, u: User)
  {
    status == "ALL" || UserStatusName(u.status) == status
  }

  /** `filteredUsers`: one filter with the three conditions together. */
  function FilteredUsers(users: seq<User>, query: string, role: string, status: string): (r: seq<User>)
    ensures IsSubseq(r, users)
    ensures forall u :: u in r <==> u in users && SearchHit(query, u) && RoleMatches(role, u) && StatusMatches(status, u)
  {
    Filter(users, (u: User) => SearchHit(query, u) && RoleMatches(role, u) && StatusMatches(status, u))
  }

  /** The empty query is included in every field, so it matches every user. */
  lemma EmptyQueryMatchesEveryone(u: User)
    ensures SearchHit("", u)
  {
    ContainsEmpty(ToLower(u.fullName));
  }

  /** With an empty query and both filters on "ALL", every user is listed in order. */
  lemma UnfilteredListsAll(users: seq<User>)
    ensures FilteredUsers(users, "", "ALL", "ALL") == users
  {
    forall u | u in users
      ensures SearchHit("", u) && RoleMatches("ALL", u) && StatusMatches("ALL", u)
    {
      EmptyQueryMatchesEveryone(u);
    }
    FilterKeepsAll(users, (u: User) => SearchHit("", u) && RoleMatches("ALL", u) && StatusMatches("ALL", u));
  }

  /** The page sizes the selector offers. */
  predicate OfferedPageSize(n: nat)
  {
    n == 5 || n == 10 || n == 20
  }

  /** The page state of the table and the handlers that change it. */
  class UserTable {
    var currentPage: int
    var pageSize: nat
    var searchQuery: string
    var filterRole: string
    var filterStatus: string

    constructor ()
      ensures currentPage == 1 && pageSize == 10 && searchQuery == ""
      ensures filterRole == "ALL" && filterStatus == "ALL"
      ensures Valid()
    {
      currentPage := 1;
      pageSize := 10;
      searchQuery := "";
      filterRole := "ALL";
      filterStatus := "ALL";
    }

    predicate Valid()
      reads this
    {
      OfferedPageSize(pageSize)
    }

    /**
     * The users shown on the current page: at most `pageSize` of them, the
     * matches from position `(currentPage - 1) * pageSize` up to
     * `currentPage * pageSize`, cut at the end of the list.
     */
    function Shown(users: seq<User>): (r: seq<User>)
      reads this
      requires Valid()
      ensures |r| <= pageSize
      ensures currentPage == 1 ==> r == Take(FilteredUsers(users, searchQuery, filterRole, filterStatus), pageSize)
      ensures var f := FilteredUsers(users, searchQuery, filterRole, filterStatus);
        currentPage >= 1 ==>
          0 <= (currentPage - 1) * pageSize
          && Min((currentPage - 1) * pageSize, |f|) <= Min(currentPage * pageSize, |f|)
          && r == f[Min((currentPage - 1) * pageSize, |f|)..Min(currentPage * pageSize, |f|)]
      ensures currentPage == 0 ==> r == []
    {
      var f := FilteredUsers(users, searchQuery, filterRole, filterStatus);
      if currentPage >= 1 then
        OffsetNonNegative(currentPage, pageSize);
        PageAt(f, pageSize, currentPage);
        Page(f, currentPage, pageSize)
      else if currentPage == 0 then PageOutOfRange(f, 0, pageSize); Page(f, currentPage, pageSize)
      else Page(f, currentPage, pageSize)
    }

    /** `handleFilterChange(() => setSearchQuery(query))`: back to page 1, then the new query. */
    method SetSearch(query: string)
      requires Valid()
      modifies this
      ensures Valid()
      ensures currentPage == 1 && searchQuery == query
      ensures pageSize == old(pageSize) && filterRole == old(filterRole) && filterStatus == old(filterStatus)
    {
      currentPage := 1;
      searchQuery := query;
    }

    method SetRole(role: string)
      requires Valid()
      modifies this
      ensures Valid()
      ensures currentPage == 1 && filterRole == role
      ensures pageSize == old(pageSize) && searchQuery == old(searchQuery) && filterStatus == old(filterStatus)
    {
      currentPage := 1;
      filterRole := role;
    }

    method SetStatus(status: string)
      requires Valid()
      modifies this
      ensures Valid()
      ensures currentPage == 1 && filterStatus == status
      ensures pageSize == old(pageSize) && searchQuery == old(searchQuery) && filterRole == old(filterRole)
    {
      currentPage := 1;
      filterStatus := status;
    }

    /** `setPageSize(parseInt(value)); setCurrentPage(1)`. */
    method SetPageSize(size: nat)
      requires OfferedPageSize(size)
      modifies this
      ensures Valid()
      ensures currentPage == 1 && pageSize == size
      ensures searchQuery == old(searchQuery) && filterRole == old(filterRole) && filterStatus == old(filterStatus)
    {
      pageSize := size;
      currentPage := 1;
    }

    method GoPrevious()
      requires Valid()
      modifies this
      ensures Valid()
      ensures currentPage == Previous(old(currentPage))
      ensures pageSize == old(pageSize) && searchQuery == old(searchQuery)
      ensures filterRole == old(filterRole) && filterStatus == old(filterStatus)
    {
      currentPage := Max(1, currentPage - 1);
    }

    method GoNext(users: seq<User>)
      requires Valid()
      modifies this
      ensures Valid()
      ensures currentPage == Next(old(currentPage), TotalPages(|FilteredUsers(users, searchQuery, filterRole, filterStatus)|, pageSize))
      ensures pageSize == old(pageSize) && searchQuery == old(searchQuery)
      ensures filterRole == old(filterRole) && filterStatus == old(filterStatus)
    {
      var total := TotalPages(|FilteredUsers(users, searchQuery, filterRole, filterStatus)|, pageSize);
      currentPage := Min(total, currentPage + 1);
    }

    method GoTo(pageNum: int)
      requires Valid()
      modifies this
      ensures Valid()
      ensures currentPage == pageNum
      ensures pageSize == old(pageSize) && searchQuery == old(searchQuery)
      ensures filterRole == old(filterRole) && filterStatus == old(filterStatus)
    {
      currentPage := pageNum;
    }
  }
}

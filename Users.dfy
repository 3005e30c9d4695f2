/**
 * The user list screen (`UsersComponent`): its fields, the requests it
 * issues and how each HTTP outcome updates it.  As on the risk-context
 * screen, a method that issues a request returns it, and the outcome is
 * handed to a `Handle...` method later.
 */
module Users {
  import opened Wrappers
  import opened Text
  import opened Decimal
  import opened Http
  import opened Ordering
  import opened UsersModel

  const Resource: string := "users"

  class UsersComponent {
    var loading: bool
    var errorMsg: string

    var users: seq<UserItem>
    var pagination: Option<Pagination>

    var fName: string
    var fUsername: string
    var fRole: string
    var fActive: string
    var fVerified: string

    var roleOptions: seq<string>

    var page: nat
    var limit: nat

    /** The pages are numbered from 1 and the role dropdown starts with ALL. */
    ghost predicate Valid()
      reads this
    {
      && page >= 1 && limit >= 1
      && |roleOptions| >= 1 && roleOptions[0] == "ALL"
    }

    /** The five filter fields as one value. */
    function Filters(): UserFilters
      reads this`fName, this`fUsername, this`fRole, this`fActive, this`fVerified
    {
      UserFilters(fName, fUsername, fRole, fActive, fVerified)
    }

    constructor ()
      ensures Valid()
      ensures !loading && errorMsg == "" && users == [] && pagination == None
      ensures Filters() == DefaultUserFilters && roleOptions == ["ALL"]
      ensures page == 1 && limit == 10
    {
      loading := false;
      errorMsg := "";
      users := [];
      pagination := None;
      fName, fUsername, fRole, fActive, fVerified := "", "", "ALL", "ALL", "ALL";
      roleOptions := ["ALL"];
      page, limit := 1, 10;
    }

    /** `buildParams`: optionally go back to page 1, then build the `HttpParams` chain from the current filters. */
    method BuildParams(resetPage: bool) returns (params: Params)
      requires Valid()
      modifies this`page
      ensures Valid()
      ensures page == if resetPage then 1 else old(page)
      ensures IsUsersQuery(params, page, limit, Filters())
    {
      if resetPage {
        page := 1;
      }
      params := UsersQuery(page, limit, Filters());
      UsersQueryMeaning(page, limit, Filters());
    }

    /** `fetchUsers`: mark the screen loading and issue the list request; only `accessToken` is read. */
    method Fetch(resetPage: bool, store: TokenStore) returns (req: Request)
      requires Valid()
      modifies this`loading, this`errorMsg, this`page
      ensures Valid()
      ensures loading && errorMsg == ""
      ensures page == if resetPage then 1 else old(page)
      ensures IsUsersQuery(req.params, page, limit, Filters())
      ensures req.bearer == BearerToken(store.accessToken, None)
    {
      loading := true;
      errorMsg := "";
      var bearer := BearerToken(store.accessToken, None);
      var params := BuildParams(resetPage);
      req := Request(params, bearer);
    }

    /** `buildRoleOptions`: collect every role of every user in a set, then list them sorted after ALL. */
    method BuildRoleOptions()
      modifies this`roleOptions
      ensures IsRoleOptions(roleOptions, users)
    {
      var roles: set<string> := {};
      for n := 0 to |users|
        invariant roles == RolesOf(users[..n])
      {
        assert users[..n + 1][..n] == users[..n];
        var rs := users[n].roles.GetOr([]);
        for j := 0 to |rs|
          invariant roles == RolesOf(users[..n]) + (set r | r in rs[..j])
        {
          assert rs[..j + 1] == rs[..j] + [rs[j]];
          roles := roles + {rs[j]};
        }
        assert rs[..|rs|] == rs;
      }
      assert users[..|users|] == users;
      StrLessIsStrictTotalOrder();
      var sorted := SortSet(roles, StrLess);
      RoleOptionsOfSorted(sorted, users);
      roleOptions := ["ALL"] + sorted;
    }

    /** The `next` handler of the list request. */
    method HandleFetchSuccess(res: ListResponse<UserItem>)
      requires Valid()
      modifies this`users, this`pagination, this`roleOptions, this`loading
      ensures Valid()
      ensures users == res.data.GetOr([]) && pagination == res.pagination
      ensures IsRoleOptions(roleOptions, users)
      ensures !loading
    {
      users := res.data.GetOr([]);
      pagination := res.pagination;
      BuildRoleOptions();
      loading := false;
    }

    /** The `error` handler of the list request; `status` 0 means no HTTP status. */
    method HandleFetchError(status: nat)
      requires Valid()
      modifies this`users, this`pagination, this`loading, this`errorMsg
      ensures Valid()
      ensures users == [] && pagination == None && !loading
      ensures errorMsg == FetchErrorMessage(Resource, status)
    {
      loading := false;
      users := [];
      pagination := None;
      errorMsg := FetchErrorMessage(Resource, status);
    }

    /** `applyFilters`: refetch from page 1 with the current filters. */
    method ApplyFilters(store: TokenStore) returns (req: Request)
      requires Valid()
      modifies this`loading, this`errorMsg, this`page
      ensures Valid()
      ensures loading && errorMsg == "" && page == 1
      ensures IsUsersQuery(req.params, 1, limit, Filters())
      ensures req.bearer == BearerToken(store.accessToken, None)
    {
      req := Fetch(true, store);
    }

    /** The five assignments at the head of `resetFilters`. */
    method ClearFilters()
      modifies this`fName, this`fUsername, this`fRole, this`fActive, this`fVerified
      ensures Filters() == DefaultUserFilters
    {
      fName := "";
      fUsername := "";
      fRole := "ALL";
      fActive := "ALL";
      fVerified := "ALL";
    }

    /** `resetFilters`: every filter back to its default, then refetch from page 1. */
    method ResetFilters(store: TokenStore) returns (req: Request)
      requires Valid()
      modifies this`fName, this`fUsername, this`fRole, this`fActive, this`fVerified
      modifies this`loading, this`errorMsg, this`page
      ensures Valid()
      ensures Filters() == DefaultUserFilters
      ensures loading && errorMsg == "" && page == 1
      ensures IsUsersQuery(req.params, page, limit, Filters())
      ensures req.bearer == BearerToken(store.accessToken, None)
    {
      ClearFilters();
      req := Fetch(true, store);
    }

    /** `prevPage`: only when the server reports a previous page; never below page 1. */
    method PrevPage(store: TokenStore) returns (req: Option<Request>)
      requires Valid()
      modifies this`loading, this`errorMsg, this`page
      ensures Valid()
      ensures var allowed := old(pagination).Some? && old(pagination).value.hasPrevPage;
              && (!allowed ==> req.None? && page == old(page) && loading == old(loading) && errorMsg == old(errorMsg))
              && (allowed ==> && req.Some? && page == (if old(page) > 1 then old(page) - 1 else 1)
                              && loading && errorMsg == ""
                              && IsUsersQuery(req.value.params, page, limit, Filters())
                              && req.value.bearer == BearerToken(store.accessToken, None))
    {
      if !(pagination.Some? && pagination.value.hasPrevPage) {
        return None;
      }
      page := if page - 1 > 1 then page - 1 else 1;
      var r := Fetch(false, store);
      req := Some(r);
    }

    /** `nextPage`: only when the server reports a next page; advances by exactly one. */
    method NextPage(store: TokenStore) returns (req: Option<Request>)
      requires Valid()
      modifies this`loading, this`errorMsg, this`page
      ensures Valid()
      ensures var allowed := old(pagination).Some? && old(pagination).value.hasNextPage;
              && (!allowed ==> req.None? && page == old(page) && loading == old(loading) && errorMsg == old(errorMsg))
              && (allowed ==> && req.Some? && page == old(page) + 1
                              && loading && errorMsg == ""
                              && IsUsersQuery(req.value.params, page, limit, Filters())
                              && req.value.bearer == BearerToken(store.accessToken, None))
    {
      if !(pagination.Some? && pagination.value.hasNextPage) {
        return None;
      }
      page := page + 1;
      var r := Fetch(false, store);
      req := Some(r);
    }
  }
}

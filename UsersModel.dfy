/**
 * The user list screen's values: the user records, the five filters, the
 * query string they become, and the role dropdown collected from a page of
 * users.
 */
module UsersModel {
  import opened Wrappers
  import opened Text
  import opened Decimal
  import opened Http
  import opened Ordering

  /** One user as the list endpoint returns it; `roles` may be missing. */
  datatype UserItem = UserItem(
    id: string,
    username: string,
    name: string,
    email: string,
    isActive: bool,
    isVerified: bool,
    roles: Option<seq<string>>)

  /** The filter fields: free text for name and username, `ALL` or a role, and the two status choices. */
  datatype UserFilters = UserFilters(
    name: string,
    username: string,
    role: string,
    active: string,
    verified: string)

  const DefaultUserFilters: UserFilters := UserFilters("", "", "ALL", "ALL", "ALL")

  /** The keys a users query may carry. */
  const QueryKeys: set<string> := {"page", "limit", "name", "username", "role", "isActive", "isVerified"}

  /** A free-text filter is sent trimmed, and only when something is left after trimming. */
  function TextParam(v: string): Option<string>
  {
    if Trim(v) != [] then Some(Trim(v)) else None
  }

  /** `ACTIVE` / `INACTIVE` become `isActive=true` / `false`; anything else sends nothing. */
  function ActiveParam(active: string): Option<string>
  {
    if active == "ACTIVE" then Some("true")
    else if active == "INACTIVE" then Some("false")
    else None
  }

  /** `VERIFIED` / `UNVERIFIED` become `isVerified=true` / `false`; anything else sends nothing. */
  function VerifiedParam(verified: string): Option<string>
  {
    if verified == "VERIFIED" then Some("true")
    else if verified == "UNVERIFIED" then Some("false")
    else None
  }

  /**
   * The query of `GET /users`: the page and the page size as decimal
   * numerals, each filter only when it is not at its sentinel, and no other key.
   */
  ghost predicate IsUsersQuery(p: Params, page: nat, limit: nat, f: UserFilters)
  {
    && Lookup(p, "page") == Some(NatToString(page))
    && Lookup(p, "limit") == Some(NatToString(limit))
    && Lookup(p, "name") == TextParam(f.name)
    && Lookup(p, "username") == TextParam(f.username)
    && Lookup(p, "role") == RoleParam(f.role)
    && Lookup(p, "isActive") == ActiveParam(f.active)
    && Lookup(p, "isVerified") == VerifiedParam(f.verified)
    && Keys(p) <= QueryKeys
  }

  /** `role` is sent unless the choice is `ALL`. */
  function RoleParam(role: string): Option<string>
  {
    if role != "ALL" then Some(role) else None
  }

  /** `params.set(key, v)` when there is a value to send, otherwise `params` unchanged. */
  function SetWhen(p: Params, key: string, v: Option<string>): (r: Params)
    ensures Lookup(r, key) == (if v.Some? then v else Lookup(p, key))
    ensures forall k :: k != key ==> Lookup(r, k) == Lookup(p, k)
    ensures Keys(r) <= Keys(p) + {key}
  {
    if v.Some? then SetParam(p, key, v.value) else p
  }

  /** The paging part of the query, `page` first. */
  function PagingQuery(page: nat, limit: nat): (p: Params)
  {
    SetParam(SetParam([], "page", NatToString(page)), "limit", NatToString(limit))
  }

  /** The `HttpParams` chain of `buildParams`: paging, then each filter that has a value to send. */
  function UsersQuery(page: nat, limit: nat, f: UserFilters): Params
  {
    var p := PagingQuery(page, limit);
    var p := SetWhen(p, "name", TextParam(f.name));
    var p := SetWhen(p, "username", TextParam(f.username));
    var p := SetWhen(p, "role", RoleParam(f.role));
    var p := SetWhen(p, "isActive", ActiveParam(f.active));
    SetWhen(p, "isVerified", VerifiedParam(f.verified))
  }

  /** The paging part carries `page` and `limit` and no filter. */
  lemma PagingQueryCarries(page: nat, limit: nat)
    ensures Carries(PagingQuery(page, limit),
                    Expected(Some(NatToString(page)), Some(NatToString(limit)), None, None, None, None, None))
  {
    QueryKeysDistinct();
    var p0 := SetParam([], "page", NatToString(page));
    assert Keys(p0) == {"page"};
  }

  /** The seven query keys are pairwise different. */
  lemma QueryKeysDistinct()
    ensures "page" != "limit" && "page" != "name" && "page" != "username" && "page" != "role"
    ensures "page" != "isActive" && "page" != "isVerified"
    ensures "limit" != "name" && "limit" != "username" && "limit" != "role"
    ensures "limit" != "isActive" && "limit" != "isVerified"
    ensures "name" != "username" && "name" != "role" && "name" != "isActive" && "name" != "isVerified"
    ensures "username" != "role" && "username" != "isActive" && "username" != "isVerified"
    ensures "role" != "isActive" && "role" != "isVerified" && "isActive" != "isVerified"
  {
    assert "page"[0] == 'p' && "name"[0] == 'n' && "role"[0] == 'r';
    assert "username"[0] == 'u' && "isActive"[0] == 'i';
    assert "isActive"[2] == 'A' && "isVerified"[2] == 'V';
  }

  /** What each of the seven keys is expected to carry. */
  datatype Expected = Expected(
    page: Option<string>,
    limit: Option<string>,
    name: Option<string>,
    username: Option<string>,
    role: Option<string>,
    isActive: Option<string>,
    isVerified: Option<string>)

  /** `p` uses only the allowed keys, each with its expected value. */
  ghost predicate Carries(p: Params, e: Expected)
  {
    && Lookup(p, "page") == e.page
    && Lookup(p, "limit") == e.limit
    && Lookup(p, "name") == e.name
    && Lookup(p, "username") == e.username
    && Lookup(p, "role") == e.role
    && Lookup(p, "isActive") == e.isActive
    && Lookup(p, "isVerified") == e.isVerified
    && Keys(p) <= QueryKeys
  }

  /** A value to send replaces the expectation; no value leaves it. */
  function Then(old_: Option<string>, v: Option<string>): Option<string>
  {
    if v.Some? then v else old_
  }

  lemma StepName(p: Params, e: Expected, v: Option<string>)
    requires Carries(p, e)
    ensures Carries(SetWhen(p, "name", v), e.(name := Then(e.name, v)))
  {
    QueryKeysDistinct();
  }

  lemma StepUsername(p: Params, e: Expected, v: Option<string>)
    requires Carries(p, e)
    ensures Carries(SetWhen(p, "username", v), e.(username := Then(e.username, v)))
  {
    QueryKeysDistinct();
  }

  lemma StepRole(p: Params, e: Expected, v: Option<string>)
    requires Carries(p, e)
    ensures Carries(SetWhen(p, "role", v), e.(role := Then(e.role, v)))
  {
    QueryKeysDistinct();
  }

  lemma StepActive(p: Params, e: Expected, v: Option<string>)
    requires Carries(p, e)
    ensures Carries(SetWhen(p, "isActive", v), e.(isActive := Then(e.isActive, v)))
  {
    QueryKeysDistinct();
  }

  lemma StepVerified(p: Params, e: Expected, v: Option<string>)
    requires Carries(p, e)
    ensures Carries(SetWhen(p, "isVerified", v), e.(isVerified := Then(e.isVerified, v)))
  {
    QueryKeysDistinct();
  }

  /** The chain builds exactly the query the screen promises. */
  lemma UsersQueryMeaning(page: nat, limit: nat, f: UserFilters)
    ensures IsUsersQuery(UsersQuery(page, limit, f), page, limit, f)
  {
    PagingQueryCarries(page, limit);
    var p0 := PagingQuery(page, limit);
    var e0 := Expected(Some(NatToString(page)), Some(NatToString(limit)), None, None, None, None, None);
    var p1 := SetWhen(p0, "name", TextParam(f.name));
    StepName(p0, e0, TextParam(f.name));
    var e1 := e0.(name := TextParam(f.name));
    var p2 := SetWhen(p1, "username", TextParam(f.username));
    StepUsername(p1, e1, TextParam(f.username));
    var e2 := e1.(username := TextParam(f.username));
    var p3 := SetWhen(p2, "role", RoleParam(f.role));
    StepRole(p2, e2, RoleParam(f.role));
    var e3 := e2.(role := RoleParam(f.role));
    var p4 := SetWhen(p3, "isActive", ActiveParam(f.active));
    StepActive(p3, e3, ActiveParam(f.active));
    var e4 := e3.(isActive := ActiveParam(f.active));
    StepVerified(p4, e4, VerifiedParam(f.verified));
  }

  /** With every filter at its default no filter key is sent. */
  lemma DefaultSendsNoFilter(p: Params, page: nat, limit: nat)
    requires IsUsersQuery(p, page, limit, DefaultUserFilters)
    ensures "name" !in Keys(p) && "username" !in Keys(p) && "role" !in Keys(p)
    ensures "isActive" !in Keys(p) && "isVerified" !in Keys(p)
  {
    assert Trim("") == [];
    LookupIffKey(p, "name");
    LookupIffKey(p, "username");
    LookupIffKey(p, "role");
    LookupIffKey(p, "isActive");
    LookupIffKey(p, "isVerified");
  }

  /** With every filter at its default the query carries the paging keys and nothing else. */
  lemma DefaultQueryIsPagingOnly(p: Params, page: nat, limit: nat)
    requires IsUsersQuery(p, page, limit, DefaultUserFilters)
    ensures Keys(p) == {"page", "limit"}
  {
    DefaultSendsNoFilter(p, page, limit);
    LookupIffKey(p, "page");
    LookupIffKey(p, "limit");
    PagingKeysOnly(Keys(p));
  }

  /** Of the allowed keys, only the paging ones are left once the five filter keys are excluded. */
  lemma PagingKeysOnly(keys: set<string>)
    requires keys <= QueryKeys && "page" in keys && "limit" in keys
    requires "name" !in keys && "username" !in keys && "role" !in keys
    requires "isActive" !in keys && "isVerified" !in keys
    ensures keys == {"page", "limit"}
  {
  }

  /** A name or username made only of white space is not sent. */
  lemma BlankTextNotSent(p: Params, page: nat, limit: nat, f: UserFilters)
    requires IsUsersQuery(p, page, limit, f)
    ensures "name" in Keys(p) <==> !IsBlank(f.name)
    ensures "username" in Keys(p) <==> !IsBlank(f.username)
  {
    LookupIffKey(p, "name");
    LookupIffKey(p, "username");
    TrimEmptyIffBlank(f.name);
    TrimEmptyIffBlank(f.username);
  }

  /** The sent text is already trimmed: the server sees no surrounding white space. */
  lemma SentTextIsTrimmed(p: Params, page: nat, limit: nat, f: UserFilters)
    requires IsUsersQuery(p, page, limit, f)
    ensures Lookup(p, "name").Some? ==> Trim(Lookup(p, "name").value) == Lookup(p, "name").value
    ensures Lookup(p, "username").Some? ==> Trim(Lookup(p, "username").value) == Lookup(p, "username").value
  {
    TrimIdempotent(f.name);
    TrimIdempotent(f.username);
  }

  // ---------------------------------------------------------------- role dropdown

  /** `u.roles || []` as a set. */
  function RoleSet(u: UserItem): set<string>
  {
    set r | r in u.roles.GetOr([])
  }

  /** The contents of the `Set<string>` after the nested loop over `users`. */
  ghost function RolesOf(users: seq<UserItem>): set<string>
  {
    if users == [] then {} else RolesOf(users[..|users| - 1]) + RoleSet(users[|users| - 1])
  }

  /** The collected roles are exactly the roles some user on the page carries. */
  lemma {:induction false} RolesOfMembers(users: seq<UserItem>, r: string)
    ensures r in RolesOf(users) <==> exists u :: u in users && u.roles.Some? && r in u.roles.value
  {
    if users != [] {
      var init := users[..|users| - 1];
      var last := users[|users| - 1];
      RolesOfMembers(init, r);
      assert users == init + [last];
      if exists u :: u in users && u.roles.Some? && r in u.roles.value {
        var u :| u in users && u.roles.Some? && r in u.roles.value;
        if u !in init {
          assert u == last;
        }
      }
    }
  }

  /** `['ALL', ...Array.from(set).sort()]`: the sentinel, then every role once, in ascending string order. */
  ghost predicate IsRoleOptions(opts: seq<string>, users: seq<UserItem>)
  {
    && |opts| >= 1 && opts[0] == "ALL"
    && StrictlyAscending(opts[1..], StrLess)
    && (forall r :: r in opts[1..] <==> r in RolesOf(users))
  }

  /** Putting ALL in front of the distinct roles, sorted, gives the role dropdown. */
  lemma RoleOptionsOfSorted(sorted: seq<string>, users: seq<UserItem>)
    requires StrictlyAscending(sorted, StrLess)
    requires forall r :: r in sorted <==> r in RolesOf(users)
    ensures IsRoleOptions(["ALL"] + sorted, users)
  {
    assert (["ALL"] + sorted)[1..] == sorted;
  }

  /** After the sentinel no role is listed twice. */
  lemma RoleOptionsDistinct(opts: seq<string>, users: seq<UserItem>)
    requires IsRoleOptions(opts, users)
    ensures forall i, j :: 1 <= i < j < |opts| ==> opts[i] != opts[j]
  {
    forall i, j | 1 <= i < j < |opts| ensures opts[i] != opts[j] {
      assert StrLess(opts[1..][i - 1], opts[1..][j - 1]);
      StrLessIrreflexive(opts[i]);
    }
  }

  /** The dropdown lists one entry per distinct role, after the sentinel. */
  lemma RoleOptionsCount(opts: seq<string>, users: seq<UserItem>)
    requires IsRoleOptions(opts, users)
    ensures |opts| == |RolesOf(users)| + 1
  {
    RoleOptionsDistinct(opts, users);
    DistinctCard(opts[1..], RolesOf(users));
  }

  /** A sequence without repeats has as many elements as the set of its elements. */
  lemma {:induction false} DistinctCard(s: seq<string>, t: set<string>)
    requires forall i, j :: 0 <= i < j < |s| ==> s[i] != s[j]
    requires forall r :: r in s <==> r in t
    ensures |s| == |t|
  {
    if s != [] {
      var rest := s[1..];
      forall i, j | 0 <= i < j < |rest| ensures rest[i] != rest[j] {
        assert rest[i] == s[i + 1] && rest[j] == s[j + 1];
      }
      forall r ensures r in rest <==> r in t - {s[0]} {
        if r in rest {
          var k :| 0 <= k < |rest| && rest[k] == r;
          assert s[k + 1] == r;
        }
        if r in t - {s[0]} {
          var k :| 0 <= k < |s| && s[k] == r;
          assert k != 0;
          assert rest[k - 1] == r;
        }
      }
      DistinctCard(rest, t - {s[0]});
    }
  }
}

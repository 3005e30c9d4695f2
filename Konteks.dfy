/**
 * The risk-context list screen (`KonteksComponent`): its fields, the
 * requests it issues and how each HTTP outcome updates it.  A request and
 * its response are separate calls, as they are in the browser: a method that
 * issues a request returns it, and the caller later hands the outcome to a
 * `Handle...` method.
 */
module Konteks {
  import opened Wrappers
  import opened Text
  import opened Decimal
  import opened Http
  import opened Ordering
  import opened KonteksModel

  const Resource: string := "konteks"

  /** `page` and `limit`, and nothing else: the screen's list query. */
  ghost predicate IsListQuery(p: Params, page: nat, limit: nat)
  {
    && Lookup(p, "page") == Some(NatToString(page))
    && Lookup(p, "limit") == Some(NatToString(limit))
    && Keys(p) == {"page", "limit"}
  }

  /** The body and target of `PATCH /konteks/{id}`, with the bearer token. */
  datatype PatchRequest = PatchRequest(id: string, payload: PatchPayload, bearer: string)

  class KonteksComponent {
    var loading: bool
    var errorMsg: string

    var items: seq<KonteksItem>
    var pagination: Option<Pagination>

    var totalKonteks: int
    var totalAktif: int
    var totalNonAktif: int

    var fName: string
    var fCode: string
    var fPeriode: Choice<int>
    var fRiskAppetite: string
    var fMatrixSize: Choice<int>
    var fActive: string

    var periodeOptions: seq<Choice<int>>

    var page: nat
    var limit: nat

    var showEditModal: bool
    var editError: string
    var editModel: EditKonteksModel

    /** The pages are numbered from 1, the summary counts are those of the displayed list, and the year dropdown starts with ALL. */
    ghost predicate Valid()
      reads this
    {
      && page >= 1 && limit >= 1
      && Counts(totalKonteks, totalAktif, totalNonAktif) == StatsOf(items)
      && |periodeOptions| >= 1 && periodeOptions[0] == All
    }

    /** The six filter fields as one value. */
    function Filters(): KonteksFilters
      reads this`fName, this`fCode, this`fPeriode, this`fRiskAppetite, this`fMatrixSize, this`fActive
    {
      KonteksFilters(fName, fCode, fPeriode, fRiskAppetite, fMatrixSize, fActive)
    }

    constructor ()
      ensures Valid()
      ensures !loading && errorMsg == "" && items == [] && pagination == None
      ensures Filters() == DefaultFilters && periodeOptions == [All]
      ensures page == 1 && limit == 10
      ensures !showEditModal && editError == "" && editModel == InitialEditModel
    {
      loading := false;
      errorMsg := "";
      items := [];
      pagination := None;
      totalKonteks, totalAktif, totalNonAktif := 0, 0, 0;
      fName, fCode := "", "";
      fPeriode, fRiskAppetite, fMatrixSize, fActive := All, "ALL", All, "ALL";
      periodeOptions := [All];
      page, limit := 1, 10;
      showEditModal := false;
      editError := "";
      editModel := InitialEditModel;
    }

    /** `buildParams`: optionally go back to page 1, then send `page` and `limit`. */
    method BuildParams(resetPage: bool) returns (params: Params)
      requires Valid()
      modifies this`page
      ensures Valid()
      ensures page == if resetPage then 1 else old(page)
      ensures IsListQuery(params, page, limit)
    {
      if resetPage {
        page := 1;
      }
      params := SetParam([], "page", NatToString(page));
      params := SetParam(params, "limit", NatToString(limit));
    }

    /** `fetchKonteks`: mark the screen loading and issue the list request. */
    method Fetch(resetPage: bool, store: TokenStore) returns (req: Request)
      requires Valid()
      modifies this`loading, this`errorMsg, this`page
      ensures Valid()
      ensures loading && errorMsg == ""
      ensures page == if resetPage then 1 else old(page)
      ensures IsListQuery(req.params, page, limit)
      ensures req.bearer == BearerToken(store.accessToken, store.legacyAccessToken)
    {
      loading := true;
      errorMsg := "";
      var bearer := BearerToken(store.accessToken, store.legacyAccessToken);
      var params := BuildParams(resetPage);
      req := Request(params, bearer);
    }

    /** `buildPeriodeOptionsFromData`: collect the years in a set, then list them in ascending order after ALL. */
    method BuildPeriodeOptionsFromData(list: seq<KonteksItem>)
      modifies this`periodeOptions
      ensures IsPeriodeOptions(periodeOptions, list)
    {
      var years: set<int> := {};
      for n := 0 to |list|
        invariant years == YearsOf(list[..n])
      {
        assert list[..n + 1][..n] == list[..n];
        var k := list[n];
        if k.periodStart.Some? {
          years := years + {k.periodStart.value};
        }
        if k.periodEnd.Some? {
          years := years + {k.periodEnd.value};
        }
      }
      assert list[..|list|] == list;
      IntLessIsStrictTotalOrder();
      var sorted := SortSet(years, IntLess);
      PeriodeOptionsOfSorted(sorted, list);
      periodeOptions := PeriodeOptions(sorted);
    }

    /** `refreshStatsClient` */
    method RefreshStatsClient(list: seq<KonteksItem>)
      modifies this`totalKonteks, this`totalAktif, this`totalNonAktif
      ensures Counts(totalKonteks, totalAktif, totalNonAktif) == StatsOf(list)
    {
      totalKonteks := |list|;
      totalAktif := CountActive(list);
      totalNonAktif := CountInactive(list);
    }

    /** The `next` handler of the list request. */
    method HandleFetchSuccess(res: ListResponse<KonteksItem>)
      requires Valid()
      modifies this`periodeOptions, this`items, this`pagination, this`loading
      modifies this`totalKonteks, this`totalAktif, this`totalNonAktif
      ensures Valid()
      ensures var raw := res.data.GetOr([]);
              && items == ApplyClientFilters(old(Filters()), raw)
              && IsPeriodeOptions(periodeOptions, raw)
      ensures pagination == res.pagination && !loading
    {
      var raw := res.data.GetOr([]);
      var filtered := ApplyClientFilters(Filters(), raw);
      BuildPeriodeOptionsFromData(raw);
      items := filtered;
      RefreshStatsClient(filtered);
      pagination := res.pagination;
      loading := false;
    }

    /** The `error` handler of the list request; `status` 0 means no HTTP status. */
    method HandleFetchError(status: nat)
      requires Valid()
      modifies this`items, this`pagination, this`loading, this`errorMsg
      modifies this`totalKonteks, this`totalAktif, this`totalNonAktif
      ensures Valid()
      ensures items == [] && pagination == None && !loading
      ensures totalKonteks == 0 && totalAktif == 0 && totalNonAktif == 0
      ensures errorMsg == FetchErrorMessage(Resource, status)
    {
      loading := false;
      items := [];
      pagination := None;
      totalKonteks := 0;
      totalAktif := 0;
      totalNonAktif := 0;
      errorMsg := FetchErrorMessage(Resource, status);
    }

    /** `applyFilters`: refetch from page 1 with the current filters. */
    method ApplyFilters(store: TokenStore) returns (req: Request)
      requires Valid()
      modifies this`loading, this`errorMsg, this`page
      ensures Valid()
      ensures loading && errorMsg == "" && page == 1
      ensures IsListQuery(req.params, 1, limit)
      ensures req.bearer == BearerToken(store.accessToken, store.legacyAccessToken)
    {
      req := Fetch(true, store);
    }

    /** The six assignments at the head of `resetFilters`. */
    method ClearFilters()
      modifies this`fName, this`fCode, this`fPeriode, this`fRiskAppetite, this`fMatrixSize, this`fActive
      ensures Filters() == DefaultFilters
    {
      fName := "";
      fCode := "";
      fPeriode := All;
      fRiskAppetite := "ALL";
      fMatrixSize := All;
      fActive := "ALL";
    }

    /** `resetFilters`: every filter back to its default, then refetch from page 1. */
    method ResetFilters(store: TokenStore) returns (req: Request)
      requires Valid()
      modifies this`fName, this`fCode, this`fPeriode, this`fRiskAppetite, this`fMatrixSize, this`fActive
      modifies this`loading, this`errorMsg, this`page
      ensures Valid()
      ensures Filters() == DefaultFilters
      ensures loading && errorMsg == "" && page == 1
      ensures IsListQuery(req.params, 1, limit)
      ensures req.bearer == BearerToken(store.accessToken, store.legacyAccessToken)
    {
      ClearFilters();
      req := Fetch(true, store);
    }

    /** `prevPage`: only when the server reports a previous page; never below page 1. */
    method PrevPage(store: TokenStore) returns (req: Option<Request>)
      requires Valid()
      modifies this`loading, this`errorMsg, this`page
      ensures Valid()
      ensures var allowed := old(pagination).Some? && old(pagination).value.hasPrevPage;
              && (!allowed ==> req.None? && page == old(page) && loading == old(loading) && errorMsg == old(errorMsg))
              && (allowed ==> && req.Some? && page == (if old(page) > 1 then old(page) - 1 else 1)
                              && loading && errorMsg == ""
                              && IsListQuery(req.value.params, page, limit)
                              && req.value.bearer == BearerToken(store.accessToken, store.legacyAccessToken))
    {
      if !(pagination.Some? && pagination.value.hasPrevPage) {
        return None;
      }
      page := if page - 1 > 1 then page - 1 else 1;
      var r := Fetch(false, store);
      req := Some(r);
    }

    /** `nextPage`: only when the server reports a next page; advances by exactly one. */
    method NextPage(store: TokenStore) returns (req: Option<Request>)
      requires Valid()
      modifies this`loading, this`errorMsg, this`page
      ensures Valid()
      ensures var allowed := old(pagination).Some? && old(pagination).value.hasNextPage;
              && (!allowed ==> req.None? && page == old(page) && loading == old(loading) && errorMsg == old(errorMsg))
              && (allowed ==> && req.Some? && page == old(page) + 1
                              && loading && errorMsg == ""
                              && IsListQuery(req.value.params, page, limit)
                              && req.value.bearer == BearerToken(store.accessToken, store.legacyAccessToken))
    {
      if !(pagination.Some? && pagination.value.hasNextPage) {
        return None;
      }
      page := page + 1;
      var r := Fetch(false, store);
      req := Some(r);
    }

    /** `editKonteks`: open the modal on a draft copied from the item. */
    method EditKonteks(k: KonteksItem)
      modifies this`editError, this`editModel, this`showEditModal
      ensures editError == "" && editModel == EditModelFor(k) && showEditModal
    {
      editError := "";
      editModel := EditModelFor(k);
      showEditModal := true;
    }

    /** `closeEditModal` */
    method CloseEditModal()
      modifies this`showEditModal, this`editError
      ensures !showEditModal && editError == ""
    {
      showEditModal := false;
      editError := "";
    }

    /**
     * `saveEditKonteks`: check the rules in order and stop at the first that
     * fails with its message and no request; otherwise send the PATCH.
     */
    method SaveEditKonteks(store: TokenStore) returns (req: Option<PatchRequest>)
      modifies this`editError, this`loading
      ensures var bearer := BearerToken(store.accessToken, store.legacyAccessToken);
              var failure := Validate(editModel, bearer);
              && (failure.Some? ==> req.None? && editError == failure.value && loading == old(loading))
              && (failure.None? ==> && bearer.Some? && editError == "" && loading
                                    && req == Some(PatchRequest(editModel.id, BuildPayload(editModel), bearer.value)))
    {
      editError := "";
      var m := editModel;
      ValidateChain(m, BearerToken(store.accessToken, store.legacyAccessToken));
      if Trim(m.name) == [] {
        editError := NameRequired;
        return None;
      }
      if Trim(m.code) == [] {
        editError := CodeRequired;
        return None;
      }
      if !IsValidCode(m.code) {
        editError := CodeShape;
        return None;
      }
      var ps := NullAsZero(m.periodStart);
      var pe := NullAsZero(m.periodEnd);
      if ps == 0 || pe == 0 {
        editError := PeriodRequired;
        return None;
      }
      if ps > pe {
        editError := PeriodOrder;
        return None;
      }
      if !(m.matrixSize == 4 || m.matrixSize == 5) {
        editError := MatrixSizeUnsupported;
        return None;
      }
      if m.riskAppetiteLevel == [] {
        editError := LevelRequired;
        return None;
      }
      var bearer := BearerToken(store.accessToken, store.legacyAccessToken);
      if bearer.None? {
        editError := TokenMissing;
        return None;
      }
      var payload := BuildPayload(m);
      loading := true;
      req := Some(PatchRequest(m.id, payload, bearer.value));
    }

    /** The `next` handler of the PATCH: merge the payload into the item with the draft's id, recount, close. */
    method HandlePatchSuccess(payload: PatchPayload)
      requires Valid()
      modifies this`items, this`loading, this`showEditModal, this`editError
      modifies this`totalKonteks, this`totalAktif, this`totalNonAktif
      ensures Valid()
      ensures items == MergePayload(old(items), editModel.id, payload)
      ensures !loading && !showEditModal && editError == ""
    {
      items := MergePayload(items, editModel.id, payload);
      RefreshStatsClient(items);
      loading := false;
      CloseEditModal();
    }

    /** The `error` handler of the PATCH: the modal stays open with a non-empty message. */
    method HandlePatchError(e: PatchError)
      modifies this`loading, this`editError
      ensures !loading && editError == PatchErrorText(e) && editError != ""
    {
      loading := false;
      editError := PatchErrorText(e);
    }
  }
}

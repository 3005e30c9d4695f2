/**
 * The value-level part of the risk-context ("konteks") screen: the record and
 * filter shapes, the client-side filter, the summary counts, the year options,
 * the edit draft, its validation rules, the PATCH payload and the in-place merge.
 */
module KonteksModel {
  import opened Wrappers
  import opened Text
  import opened Http
  import opened Ordering

  /** A risk context as the list endpoint returns it; fields the screen guards with `??` may be `null`. */
  datatype KonteksItem = KonteksItem(
    id: string,
    name: Option<string>,
    code: Option<string>,
    description: Option<string>,
    periodStart: Option<int>,
    periodEnd: Option<int>,
    matrixSize: Option<int>,
    riskAppetiteLevel: Option<string>,
    riskAppetiteDescription: Option<string>,
    isActive: bool)

  /** A dropdown selection: the `'ALL'` sentinel or one value. */
  datatype Choice<T> = All | Only(value: T)

  /** The six filter fields of the screen. */
  datatype KonteksFilters = KonteksFilters(
    name: string,
    code: string,
    periode: Choice<int>,
    riskAppetite: string,
    matrixSize: Choice<int>,
    active: string)

  const DefaultFilters: KonteksFilters := KonteksFilters("", "", All, "ALL", All, "ALL")

  /** `Number(null)`, and `null` as an operand of `<=`: zero. */
  function NullAsZero(v: Option<int>): int
  {
    v.GetOr(0)
  }

  // ---------------------------------------------------------------- client-side filter

  /** One text filter: a blank query passes; otherwise the lower-cased field must include it. */
  predicate TextKept(query: string, field: Option<string>)
  {
    var q := ToLower(Trim(query));
    q == [] || Contains(ToLower(field.GetOr("")), q)
  }

  /** The predicate of `applyClientFilters`, one early `return false` per conjunct. */
  predicate Kept(f: KonteksFilters, k: KonteksItem)
  {
    && TextKept(f.name, k.name)
    && TextKept(f.code, k.code)
    && (f.riskAppetite == "ALL" || k.riskAppetiteLevel.GetOr("") == f.riskAppetite)
    && (f.matrixSize.All? || k.matrixSize == Some(f.matrixSize.value))
    && !(f.active == "ACTIVE" && !k.isActive)
    && !(f.active == "INACTIVE" && k.isActive)
    && (f.periode.All? || NullAsZero(k.periodStart) <= f.periode.value <= NullAsZero(k.periodEnd))
  }

  /** `list.filter(keep)`: the elements `keep` accepts, in their original order. */
  function Filter<T>(list: seq<T>, keep: T -> bool): (r: seq<T>)
    ensures |r| <= |list|
  {
    if list == [] then []
    else (if keep(list[0]) then [list[0]] else []) + Filter(list[1..], keep)
  }

  /** `applyClientFilters` */
  function ApplyClientFilters(f: KonteksFilters, list: seq<KonteksItem>): seq<KonteksItem>
  {
    Filter(list, k => Kept(f, k))
  }

  /** Filtering neither duplicates nor loses an element beyond what `keep` rejects. */
  lemma {:induction false} FilterMultiplicity<T>(list: seq<T>, keep: T -> bool, x: T)
    ensures multiset(Filter(list, keep))[x] == if keep(x) then multiset(list)[x] else 0
  {
    if list != [] {
      FilterMultiplicity(list[1..], keep, x);
      assert list == [list[0]] + list[1..];
    }
  }

  /** `r` consists of the elements of `list` at the strictly increasing positions `idx`. */
  ghost predicate PicksAt<T>(r: seq<T>, list: seq<T>, idx: seq<nat>)
  {
    && |idx| == |r|
    && (forall i :: 0 <= i < |idx| ==> idx[i] < |list| && r[i] == list[idx[i]])
    && (forall i, j :: 0 <= i < j < |idx| ==> idx[i] < idx[j])
  }

  /** Every position moved one place to the right. */
  function Shift(rest: seq<nat>): (r: seq<nat>)
    ensures |r| == |rest| && forall i :: 0 <= i < |rest| ==> r[i] == rest[i] + 1
  {
    seq(|rest|, i requires 0 <= i < |rest| => rest[i] + 1)
  }

  /** Prepending an unpicked element moves every picked position one place right. */
  lemma ShiftPicks<T>(x: T, tail: seq<T>, r: seq<T>, rest: seq<nat>)
    requires PicksAt(r, tail, rest)
    ensures PicksAt(r, [x] + tail, Shift(rest))
  {
    var list := [x] + tail;
    forall i | 0 <= i < |rest| ensures list[rest[i] + 1] == tail[rest[i]] {
    }
  }

  /** Prepending a picked element puts position 0 in front of the shifted positions. */
  lemma ConsPicks<T>(x: T, tail: seq<T>, r: seq<T>, rest: seq<nat>)
    requires PicksAt(r, tail, rest)
    ensures PicksAt([x] + r, [x] + tail, [0] + Shift(rest))
  {
    ShiftPicks(x, tail, r, rest);
    var shifted := Shift(rest);
    var idx := [0] + shifted;
    forall i | 1 <= i < |idx| ensures idx[i] == shifted[i - 1] && ([x] + r)[i] == r[i - 1] {
    }
  }

  /** A position is in the shifted list exactly when the one before it was in the original. */
  lemma ShiftMembers(rest: seq<nat>, p: nat)
    ensures p in Shift(rest) <==> p >= 1 && p - 1 in rest
  {
    if p >= 1 && p - 1 in rest {
      var i :| 0 <= i < |rest| && rest[i] == p - 1;
      assert Shift(rest)[i] == p;
    }
  }

  /** Prepending an element (picked or not) to a picked subsequence shifts the positions by one. */
  lemma PicksAtCons<T>(x: T, tail: seq<T>, r: seq<T>, rest: seq<nat>, picked: bool) returns (idx: seq<nat>)
    requires PicksAt(r, tail, rest)
    ensures PicksAt((if picked then [x] else []) + r, [x] + tail, idx)
    ensures forall p :: 0 <= p <= |tail| ==> (p in idx <==> if p == 0 then picked else p - 1 in rest)
  {
    if picked {
      ConsPicks(x, tail, r, rest);
      idx := [0] + Shift(rest);
    } else {
      ShiftPicks(x, tail, r, rest);
      idx := Shift(rest);
      assert ([] + r) == r;
    }
    forall p | 0 <= p <= |tail| ensures p in idx <==> if p == 0 then picked else p - 1 in rest {
      ShiftMembers(rest, p);
    }
  }

  /**
   * The result of a filter is an order-preserving subsequence: it picks the
   * elements at the increasing positions `idx`, which are exactly the accepted ones.
   */
  lemma {:induction false} FilterPositions<T>(list: seq<T>, keep: T -> bool) returns (idx: seq<nat>)
    ensures PicksAt(Filter(list, keep), list, idx)
    ensures forall p :: 0 <= p < |list| ==> (p in idx <==> keep(list[p]))
  {
    if list == [] {
      idx := [];
    } else {
      var tail := list[1..];
      var rest := FilterPositions(tail, keep);
      assert list == [list[0]] + tail;
      idx := PicksAtCons(list[0], tail, Filter(tail, keep), rest, keep(list[0]));
      forall p | 1 <= p < |list| ensures list[p] == tail[p - 1] {
      }
    }
  }

  /** A filter that accepts every element returns the list unchanged. */
  lemma {:induction false} FilterAll<T>(list: seq<T>, keep: T -> bool)
    requires forall x :: x in list ==> keep(x)
    ensures Filter(list, keep) == list
  {
    if list != [] {
      FilterAll(list[1..], keep);
      assert list == [list[0]] + list[1..];
    }
  }

  /** The trimmed, lower-cased query occurs in the lower-cased field (a `null` field reads as ""). */
  ghost predicate TextMatches(query: string, field: Option<string>)
  {
    exists i :: OccursAt(ToLower(Trim(query)), ToLower(field.GetOr("")), i)
  }

  /** What the screen promises of a displayed item, stated independently of the scan. */
  ghost predicate Matches(f: KonteksFilters, k: KonteksItem)
  {
    && TextMatches(f.name, k.name)
    && TextMatches(f.code, k.code)
    && (f.riskAppetite != "ALL" ==> k.riskAppetiteLevel.GetOr("") == f.riskAppetite)
    && (f.matrixSize.Only? ==> k.matrixSize == Some(f.matrixSize.value))
    && (f.active == "ACTIVE" ==> k.isActive)
    && (f.active == "INACTIVE" ==> !k.isActive)
    && (f.periode.Only? ==> NullAsZero(k.periodStart) <= f.periode.value <= NullAsZero(k.periodEnd))
  }

  lemma TextQueryMatches(query: string, field: Option<string>)
    ensures TextKept(query, field) <==> TextMatches(query, field)
  {
    var q := ToLower(Trim(query));
    var s := ToLower(field.GetOr(""));
    ContainsIffOccurs(s, q);
    if q == [] {
      assert s[0..0] == q;
      assert OccursAt(q, s, 0);
    }
  }

  /** The scan's predicate is exactly the stated one. */
  lemma KeptIffMatches(f: KonteksFilters, k: KonteksItem)
    ensures Kept(f, k) <==> Matches(f, k)
  {
    TextQueryMatches(f.name, k.name);
    TextQueryMatches(f.code, k.code);
  }

  /** No item is duplicated or lost beyond what the predicate rejects. */
  lemma FilterCounts(f: KonteksFilters, list: seq<KonteksItem>, k: KonteksItem)
    ensures multiset(ApplyClientFilters(f, list))[k] == if Kept(f, k) then multiset(list)[k] else 0
  {
    FilterMultiplicity(list, x => Kept(f, x), k);
  }

  /** Soundness and completeness: an item is displayed iff it was fetched and satisfies every active predicate. */
  lemma FilterSoundComplete(f: KonteksFilters, list: seq<KonteksItem>, k: KonteksItem)
    ensures k in ApplyClientFilters(f, list) <==> k in list && Matches(f, k)
  {
    FilterCounts(f, list, k);
    KeptIffMatches(f, k);
    assert k in ApplyClientFilters(f, list) <==> multiset(ApplyClientFilters(f, list))[k] > 0;
    assert k in list <==> multiset(list)[k] > 0;
  }

  /** The displayed list is the fetched one with exactly the rejected items left out, order kept. */
  lemma FilterSubsequence(f: KonteksFilters, list: seq<KonteksItem>) returns (idx: seq<nat>)
    ensures PicksAt(ApplyClientFilters(f, list), list, idx)
    ensures forall p :: 0 <= p < |list| ==> (p in idx <==> Kept(f, list[p]))
  {
    idx := FilterPositions(list, x => Kept(f, x));
  }

  /** With blank text queries and every selection at its sentinel, nothing is filtered out. */
  lemma FilterIdentity(f: KonteksFilters, list: seq<KonteksItem>)
    requires Trim(f.name) == [] && Trim(f.code) == []
    requires f.riskAppetite == "ALL" && f.matrixSize.All? && f.periode.All?
    requires f.active != "ACTIVE" && f.active != "INACTIVE"
    ensures ApplyClientFilters(f, list) == list
  {
    forall x | x in list ensures Kept(f, x) {
      assert |ToLower(Trim(f.name))| == 0 && |ToLower(Trim(f.code))| == 0;
    }
    FilterAll(list, x => Kept(f, x));
  }

  // ---------------------------------------------------------------- summary counts

  /** `list.filter((x) => x.isActive).length` */
  function CountActive(list: seq<KonteksItem>): nat
  {
    if list == [] then 0 else (if list[0].isActive then 1 else 0) + CountActive(list[1..])
  }

  /** `list.filter((x) => !x.isActive).length` */
  function CountInactive(list: seq<KonteksItem>): nat
  {
    if list == [] then 0 else (if list[0].isActive then 0 else 1) + CountInactive(list[1..])
  }

  lemma {:induction false} ActivePlusInactive(list: seq<KonteksItem>)
    ensures CountActive(list) + CountInactive(list) == |list|
  {
    if list != [] {
      ActivePlusInactive(list[1..]);
    }
  }

  /** The three summary numbers: total, active, inactive. */
  datatype Counts = Counts(total: int, active: int, inactive: int)

  /** `refreshStatsClient`: total, active and inactive counts of a list. */
  function StatsOf(list: seq<KonteksItem>): Counts
  {
    Counts(|list|, CountActive(list), CountInactive(list))
  }

  /** The counts of a list add up to its length, and it is all active exactly when nothing counts as inactive. */
  lemma StatsOfSpec(list: seq<KonteksItem>)
    ensures var c := StatsOf(list);
            && c.total == |list| && c.active >= 0 && c.inactive >= 0
            && c.active + c.inactive == c.total
            && (c.active == |list| <==> forall i :: 0 <= i < |list| ==> list[i].isActive)
  {
    ActivePlusInactive(list);
    AllActiveIffNoInactive(list);
  }

  lemma {:induction false} AllActiveIffNoInactive(list: seq<KonteksItem>)
    ensures CountInactive(list) == 0 <==> forall i :: 0 <= i < |list| ==> list[i].isActive
  {
    if list != [] {
      AllActiveIffNoInactive(list[1..]);
      assert forall i :: 1 <= i < |list| ==> list[i] == list[1..][i - 1];
    }
  }

  /** Filtering for ACTIVE leaves no inactive item to count, and for INACTIVE no active one. */
  lemma StatsOfActiveFilter(f: KonteksFilters, list: seq<KonteksItem>)
    ensures f.active == "ACTIVE" ==> StatsOf(ApplyClientFilters(f, list)).inactive == 0
    ensures f.active == "INACTIVE" ==> StatsOf(ApplyClientFilters(f, list)).active == 0
  {
    var r := ApplyClientFilters(f, list);
    forall i | 0 <= i < |r| ensures Kept(f, r[i]) {
      FilterSoundComplete(f, list, r[i]);
      KeptIffMatches(f, r[i]);
    }
    AllActiveIffNoInactive(r);
    AllInactiveIffNoActive(r);
  }

  lemma {:induction false} AllInactiveIffNoActive(list: seq<KonteksItem>)
    ensures CountActive(list) == 0 <==> forall i :: 0 <= i < |list| ==> !list[i].isActive
  {
    if list != [] {
      AllInactiveIffNoActive(list[1..]);
      assert forall i :: 1 <= i < |list| ==> list[i] == list[1..][i - 1];
    }
  }

  /** `r?.pagination?.totalItems ?? 0`, with a failed request (`catchError`) counting as 0. */
  function BranchCount(outcome: Option<ListResponse<KonteksItem>>): (n: int)
    ensures outcome.None? ==> n == 0
    ensures outcome.Some? && outcome.value.pagination.None? ==> n == 0
    ensures outcome.Some? && outcome.value.pagination.Some? ==> n == outcome.value.pagination.value.totalItems
  {
    match outcome
    case None => 0
    case Some(r) => if r.pagination.Some? then r.pagination.value.totalItems else 0
  }

  /** `buildStatsParams`: a one-row page, plus `isActive` only when an override is given. */
  function BuildStatsParams(activeOverride: Option<bool>): (p: Params)
    ensures Lookup(p, "page") == Some("1") && Lookup(p, "limit") == Some("1")
    ensures Lookup(p, "isActive") ==
            (match activeOverride
             case None => None
             case Some(b) => Some(if b then "true" else "false"))
    ensures Keys(p) == {"page", "limit"} + (if activeOverride.Some? then {"isActive"} else {})
  {
    var p := SetParam(SetParam([], "page", "1"), "limit", "1");
    match activeOverride
    case None => p
    case Some(b) => SetParam(p, "isActive", if b then "true" else "false")
  }

  // ---------------------------------------------------------------- year options

  /** The years an item contributes: each of its period bounds that is a number. */
  function YearsIn(k: KonteksItem): set<int>
  {
    (if k.periodStart.Some? then {k.periodStart.value} else {})
    + (if k.periodEnd.Some? then {k.periodEnd.value} else {})
  }

  /** The contents of the `Set<number>` after the loop over `list`. */
  ghost function YearsOf(list: seq<KonteksItem>): set<int>
  {
    if list == [] then {} else YearsOf(list[..|list| - 1]) + YearsIn(list[|list| - 1])
  }

  /** The years are exactly the period bounds of the items. */
  lemma {:induction false} YearsOfMembers(list: seq<KonteksItem>, y: int)
    ensures y in YearsOf(list) <==>
            exists k :: k in list && (k.periodStart == Some(y) || k.periodEnd == Some(y))
  {
    if list != [] {
      var init := list[..|list| - 1];
      YearsOfMembers(init, y);
      assert list == init + [list[|list| - 1]];
      if exists k :: k in list && (k.periodStart == Some(y) || k.periodEnd == Some(y)) {
        var k :| k in list && (k.periodStart == Some(y) || k.periodEnd == Some(y));
        if k !in init {
          assert k == list[|list| - 1];
        }
      }
    }
  }

  /** `['ALL', ...sorted]`: the sentinel, then every year of `list` once, in ascending order. */
  ghost predicate IsPeriodeOptions(opts: seq<Choice<int>>, list: seq<KonteksItem>)
  {
    && |opts| >= 1 && opts[0] == All
    && (forall i :: 1 <= i < |opts| ==> opts[i].Only?)
    && (forall i, j :: 1 <= i < j < |opts| ==> opts[i].value < opts[j].value)
    && (forall y :: Only(y) in opts <==> y in YearsOf(list))
  }

  /** `['ALL', ...years]` */
  function PeriodeOptions(years: seq<int>): (opts: seq<Choice<int>>)
    ensures |opts| == |years| + 1 && opts[0] == All
    ensures forall i :: 0 <= i < |years| ==> opts[i + 1] == Only(years[i])
  {
    [All] + seq(|years|, i requires 0 <= i < |years| => Only(years[i]))
  }

  /** Listing the distinct years in ascending order after ALL gives the year dropdown. */
  lemma PeriodeOptionsOfSorted(sorted: seq<int>, list: seq<KonteksItem>)
    requires forall i, j :: 0 <= i < j < |sorted| ==> sorted[i] < sorted[j]
    requires forall y :: y in sorted <==> y in YearsOf(list)
    ensures IsPeriodeOptions(PeriodeOptions(sorted), list)
  {
    var opts := PeriodeOptions(sorted);
    forall y ensures Only(y) in opts <==> y in sorted {
      if Only(y) in opts {
        var i :| 0 <= i < |opts| && opts[i] == Only(y);
        assert sorted[i - 1] == y;
      }
      if y in sorted {
        var i :| 0 <= i < |sorted| && sorted[i] == y;
        assert opts[i + 1] == Only(y);
      }
    }
  }

  // ---------------------------------------------------------------- edit workflow

  /** The draft edited in the modal. */
  datatype EditKonteksModel = EditKonteksModel(
    id: string,
    name: string,
    code: string,
    description: string,
    periodStart: Option<int>,
    periodEnd: Option<int>,
    matrixSize: int,
    riskAppetiteLevel: string,
    riskAppetiteDescription: string,
    isActive: bool)

  /** The draft the screen starts with, before any item was opened. */
  const InitialEditModel: EditKonteksModel :=
    EditKonteksModel("", "", "", "", None, None, 5, "LOW", "", false)

  /** `editKonteks`: copy an item into a draft, defaulting matrix size to 5 and level to LOW. */
  function EditModelFor(k: KonteksItem): (m: EditKonteksModel)
    ensures m.id == k.id && m.isActive == k.isActive
    ensures m.periodStart == k.periodStart && m.periodEnd == k.periodEnd
    ensures m.name == (if k.name.Some? then k.name.value else "")
    ensures m.code == (if k.code.Some? then k.code.value else "")
    ensures m.description == (if k.description.Some? then k.description.value else "")
    ensures m.riskAppetiteDescription ==
            (if k.riskAppetiteDescription.Some? then k.riskAppetiteDescription.value else "")
    ensures m.matrixSize == (if k.matrixSize.Some? then k.matrixSize.value else 5)
    ensures m.riskAppetiteLevel == (if k.riskAppetiteLevel.Some? then k.riskAppetiteLevel.value else "LOW")
  {
    EditKonteksModel(
      k.id,
      k.name.GetOr(""),
      k.code.GetOr(""),
      k.description.GetOr(""),
      k.periodStart,
      k.periodEnd,
      k.matrixSize.GetOr(5),
      k.riskAppetiteLevel.GetOr("LOW"),
      k.riskAppetiteDescription.GetOr(""),
      k.isActive)
  }

  predicate IsCodeChar(c: char)
  {
    'A' <= c <= 'Z' || '0' <= c <= '9' || c == '_'
  }

  /** `/^[A-Z0-9_]+$/.test(v.trim())` */
  predicate IsValidCode(v: string)
  {
    var t := Trim(v);
    t != [] && forall i :: 0 <= i < |t| ==> IsCodeChar(t[i])
  }

  /** A code that passes the shape check is non-blank, and trimming it first changes nothing. */
  lemma ValidCodeTrimmed(v: string)
    ensures IsValidCode(v) ==> Trim(v) != []
    ensures IsValidCode(Trim(v)) == IsValidCode(v)
  {
    TrimIdempotent(v);
  }

  /** One validation rule: whether it holds, and the message shown when it does not. */
  datatype Rule = Rule(holds: bool, message: string)

  const NameRequired: string := "Nama konteks wajib diisi."
  const CodeRequired: string := "Kode konteks wajib diisi."
  const CodeShape: string := "Kode hanya boleh huruf besar, angka, dan underscore. Contoh: RISK_2026"
  const PeriodRequired: string := "Periode mulai dan akhir wajib diisi."
  const PeriodOrder: string := "Periode mulai tidak boleh lebih besar dari periode akhir."
  const MatrixSizeUnsupported: string := "Ukuran matriks hanya mendukung 4 atau 5."
  const LevelRequired: string := "Risk appetite level wajib dipilih."
  const TokenMissing: string := "Token tidak ditemukan. Silakan login ulang."

  /** The checks of `saveEditKonteks`, in the order it makes them. */
  function EditRules(m: EditKonteksModel, token: Option<string>): seq<Rule>
  {
    var ps := NullAsZero(m.periodStart);
    var pe := NullAsZero(m.periodEnd);
    [ Rule(Trim(m.name) != [], NameRequired),
      Rule(Trim(m.code) != [], CodeRequired),
      Rule(IsValidCode(m.code), CodeShape),
      Rule(ps != 0 && pe != 0, PeriodRequired),
      Rule(ps <= pe, PeriodOrder),
      Rule(m.matrixSize == 4 || m.matrixSize == 5, MatrixSizeUnsupported),
      Rule(m.riskAppetiteLevel != [], LevelRequired),
      Rule(token.Some?, TokenMissing) ]
  }

  /** The message of the first rule that fails, if any. */
  function FirstFailure(rules: seq<Rule>): Option<string>
  {
    if rules == [] then None
    else if !rules[0].holds then Some(rules[0].message)
    else FirstFailure(rules[1..])
  }

  /** `FirstFailure` reports nothing exactly when every rule holds, and otherwise the earliest failing rule. */
  lemma {:induction false} FirstFailureSpec(rules: seq<Rule>)
    ensures FirstFailure(rules).None? <==> forall i :: 0 <= i < |rules| ==> rules[i].holds
    ensures FirstFailure(rules).Some? ==>
              exists i :: && 0 <= i < |rules| && !rules[i].holds
                          && rules[i].message == FirstFailure(rules).value
                          && forall j :: 0 <= j < i ==> rules[j].holds
  {
    if rules != [] && rules[0].holds {
      FirstFailureSpec(rules[1..]);
      assert forall i :: 1 <= i < |rules| ==> rules[i] == rules[1..][i - 1];
      if FirstFailure(rules).Some? {
        var k :| && 0 <= k < |rules[1..]| && !rules[1..][k].holds
                 && rules[1..][k].message == FirstFailure(rules).value
                 && forall j :: 0 <= j < k ==> rules[1..][j].holds;
        assert !rules[k + 1].holds && forall j :: 0 <= j < k + 1 ==> rules[j].holds;
      }
    } else if rules != [] {
      assert !rules[0].holds;
    }
  }

  /** The outcome of validating a draft: the error to show, or `None` when the PATCH may be sent. */
  function Validate(m: EditKonteksModel, token: Option<string>): Option<string>
  {
    FirstFailure(EditRules(m, token))
  }

  /** Eight rules are checked one after another, stopping at the first that fails. */
  lemma FirstFailureOfEight(r0: Rule, r1: Rule, r2: Rule, r3: Rule, r4: Rule, r5: Rule, r6: Rule, r7: Rule)
    ensures FirstFailure([r0, r1, r2, r3, r4, r5, r6, r7]) ==
              if !r0.holds then Some(r0.message)
              else if !r1.holds then Some(r1.message)
              else if !r2.holds then Some(r2.message)
              else if !r3.holds then Some(r3.message)
              else if !r4.holds then Some(r4.message)
              else if !r5.holds then Some(r5.message)
              else if !r6.holds then Some(r6.message)
              else if !r7.holds then Some(r7.message)
              else None
  {
    var t7 := [r7];
    var t6 := [r6] + t7;
    var t5 := [r5] + t6;
    var t4 := [r4] + t5;
    var t3 := [r3] + t4;
    var t2 := [r2] + t3;
    var t1 := [r1] + t2;
    var t0 := [r0] + t1;
    assert t0 == [r0, r1, r2, r3, r4, r5, r6, r7];
    assert t7[1..] == [] && t6[1..] == t7 && t5[1..] == t6 && t4[1..] == t5;
    assert t3[1..] == t4 && t2[1..] == t3 && t1[1..] == t2 && t0[1..] == t1;
    assert FirstFailure(t7) == if !r7.holds then Some(r7.message) else None;
    assert FirstFailure(t6) == if !r6.holds then Some(r6.message) else FirstFailure(t7);
    assert FirstFailure(t5) == if !r5.holds then Some(r5.message) else FirstFailure(t6);
    assert FirstFailure(t4) == if !r4.holds then Some(r4.message) else FirstFailure(t5);
    assert FirstFailure(t3) == if !r3.holds then Some(r3.message) else FirstFailure(t4);
    assert FirstFailure(t2) == if !r2.holds then Some(r2.message) else FirstFailure(t3);
    assert FirstFailure(t1) == if !r1.holds then Some(r1.message) else FirstFailure(t2);
    assert FirstFailure(t0) == if !r0.holds then Some(r0.message) else FirstFailure(t1);
  }

  /** The rule list read as the chain of early returns it stands for. */
  lemma ValidateChain(m: EditKonteksModel, token: Option<string>)
    ensures var ps := NullAsZero(m.periodStart);
            var pe := NullAsZero(m.periodEnd);
            Validate(m, token) ==
              if Trim(m.name) == [] then Some(NameRequired)
              else if Trim(m.code) == [] then Some(CodeRequired)
              else if !IsValidCode(m.code) then Some(CodeShape)
              else if ps == 0 || pe == 0 then Some(PeriodRequired)
              else if ps > pe then Some(PeriodOrder)
              else if !(m.matrixSize == 4 || m.matrixSize == 5) then Some(MatrixSizeUnsupported)
              else if m.riskAppetiteLevel == [] then Some(LevelRequired)
              else if token.None? then Some(TokenMissing)
              else None
  {
    var r := EditRules(m, token);
    FirstFailureOfEight(r[0], r[1], r[2], r[3], r[4], r[5], r[6], r[7]);
    assert r == [r[0], r[1], r[2], r[3], r[4], r[5], r[6], r[7]];
  }

  /** First failing rule wins: a blank name is reported whatever else is wrong. */
  lemma BlankNameReportedFirst(m: EditKonteksModel, token: Option<string>)
    requires Trim(m.name) == []
    ensures Validate(m, token) == Some(NameRequired)
  {
  }

  /** The body of `PATCH /konteks/{id}`. */
  datatype PatchPayload = PatchPayload(
    name: string,
    code: string,
    description: string,
    periodStart: int,
    periodEnd: int,
    matrixSize: int,
    riskAppetiteLevel: string,
    riskAppetiteDescription: string,
    isActive: bool)

  /** The payload built from the draft: text fields trimmed, periods read as numbers. */
  function BuildPayload(m: EditKonteksModel): PatchPayload
  {
    PatchPayload(
      Trim(m.name),
      Trim(m.code),
      Trim(m.description),
      NullAsZero(m.periodStart),
      NullAsZero(m.periodEnd),
      m.matrixSize,
      m.riskAppetiteLevel,
      Trim(m.riskAppetiteDescription),
      m.isActive)
  }

  /** A draft that passes validation yields a payload that satisfies every rule on its own. */
  lemma ValidatedPayload(m: EditKonteksModel, token: Option<string>)
    requires Validate(m, token).None?
    ensures var p := BuildPayload(m);
            && p.name != [] && Trim(p.name) == p.name
            && IsValidCode(p.code) && Trim(p.code) == p.code
            && p.periodStart != 0 && p.periodEnd != 0 && p.periodStart <= p.periodEnd
            && (p.matrixSize == 4 || p.matrixSize == 5)
            && p.riskAppetiteLevel != []
  {
    var rules := EditRules(m, token);
    FirstFailureSpec(rules);
    assert rules[0].holds && rules[2].holds && rules[3].holds && rules[4].holds;
    assert rules[5].holds && rules[6].holds;
    TrimIdempotent(m.name);
    ValidCodeTrimmed(m.code);
    TrimIdempotent(m.code);
  }

  /** `{ ...x, ...payload }` */
  function Merge(x: KonteksItem, p: PatchPayload): KonteksItem
  {
    x.(name := Some(p.name), code := Some(p.code), description := Some(p.description),
       periodStart := Some(p.periodStart), periodEnd := Some(p.periodEnd),
       matrixSize := Some(p.matrixSize), riskAppetiteLevel := Some(p.riskAppetiteLevel),
       riskAppetiteDescription := Some(p.riskAppetiteDescription), isActive := p.isActive)
  }

  /** The merged item shows every payload field. */
  ghost predicate ShowsPayload(x: KonteksItem, p: PatchPayload)
  {
    && x.name == Some(p.name) && x.code == Some(p.code) && x.description == Some(p.description)
    && x.periodStart == Some(p.periodStart) && x.periodEnd == Some(p.periodEnd)
    && x.matrixSize == Some(p.matrixSize) && x.riskAppetiteLevel == Some(p.riskAppetiteLevel)
    && x.riskAppetiteDescription == Some(p.riskAppetiteDescription) && x.isActive == p.isActive
  }

  /** `items.map((x) => x.id === id ? { ...x, ...payload } : x)` */
  function MergePayload(items: seq<KonteksItem>, id: string, p: PatchPayload): (r: seq<KonteksItem>)
    ensures |r| == |items|
    ensures forall i :: 0 <= i < |r| ==> r[i].id == items[i].id
    ensures forall i :: 0 <= i < |r| && items[i].id == id ==> ShowsPayload(r[i], p)
    ensures forall i :: 0 <= i < |r| && items[i].id != id ==> r[i] == items[i]
  {
    seq(|items|, i requires 0 <= i < |items| => if items[i].id == id then Merge(items[i], p) else items[i])
  }

  /** Applying the same successful PATCH twice leaves the list as applying it once. */
  lemma MergeIdempotent(items: seq<KonteksItem>, id: string, p: PatchPayload)
    ensures MergePayload(MergePayload(items, id, p), id, p) == MergePayload(items, id, p)
  {
    var once := MergePayload(items, id, p);
    var twice := MergePayload(once, id, p);
    forall i | 0 <= i < |items| ensures twice[i] == once[i] {
      if items[i].id == id {
        assert once[i] == Merge(items[i], p);
      }
    }
  }

  /**
   * Opening an item whose fields are all present and already trimmed, and
   * saving the draft unchanged, gives back the same item.
   */
  lemma EditUnchangedRoundTrip(k: KonteksItem)
    requires k.name.Some? && k.code.Some? && k.description.Some? && k.riskAppetiteDescription.Some?
    requires k.periodStart.Some? && k.periodEnd.Some? && k.matrixSize.Some? && k.riskAppetiteLevel.Some?
    requires Trim(k.name.value) == k.name.value && Trim(k.code.value) == k.code.value
    requires Trim(k.description.value) == k.description.value
    requires Trim(k.riskAppetiteDescription.value) == k.riskAppetiteDescription.value
    ensures Merge(k, BuildPayload(EditModelFor(k))) == k
  {
  }

  /** The error message after a failed PATCH. */
  datatype PatchError = PatchError(errors: Option<string>, message: Option<string>)

  const PatchFailedDefault: string := "Gagal update konteks. Coba lagi."

  /** `e?.error?.errors || e?.error?.message || 'Gagal update konteks. Coba lagi.'`: never empty. */
  function PatchErrorText(e: PatchError): (msg: string)
    ensures msg != []
    ensures Present(e.errors) ==> msg == e.errors.value
    ensures !Present(e.errors) && Present(e.message) ==> msg == e.message.value
    ensures !Present(e.errors) && !Present(e.message) ==> msg == PatchFailedDefault
  {
    if Present(e.errors) then e.errors.value
    else if Present(e.message) then e.message.value
    else PatchFailedDefault
  }
}

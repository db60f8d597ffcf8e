/**
 * The PostgreSQL ad repository of the backend: how each read turns the
 * optional filters into a statement (conditions pushed one filter at a time,
 * values pushed onto a positional parameter list, a running `$n` counter),
 * and what each read returns from the store.
 *
 * Every read is paired with a reference predicate that states, directly on
 * the filters, which ads it is meant to select; the builders are proved to
 * produce statements that select exactly those ads.
 */
module AdRepository {
  import opened Wrappers
  import opened Text
  import opened Like
  import opened Store

  /** The optional request filters. Status is the caller's text as given;
      dates are day numbers. */
  datatype Filters = Filters(
    status: Option<string>,
    platform: Option<string>,
    startDate: Option<int>,
    endDate: Option<int>,
    pageName: Option<string>)

  /** JavaScript truthiness of an optional text filter: present and non-empty.
      A date filter is an object, truthy whenever present. */
  predicate Given(o: Option<string>)
  {
    o.Some? && o.value != ""
  }

  function Val(o: Option<string>): string
  {
    if o.Some? then o.value else ""
  }

  function DayVal(o: Option<int>): int
  {
    if o.Some? then o.value else 0
  }

  // ---------------------------------------------------------------------
  // Reference meaning of each read's filters

  /** The ads findAll is meant to return: each given filter holds. */
  predicate FindAllMatch(db: Db, f: Filters, a: AdRow)
  {
    && (Given(f.status) ==> a.status == f.status.value)
    && (f.startDate.Some? ==> a.startDate >= f.startDate.value)
    && (f.endDate.Some? ==> a.endDate.Some? && a.endDate.value <= f.endDate.value)
    && (Given(f.pageName) ==> ILike(a.pageName, ContainsPattern(f.pageName.value)))
    && (Given(f.platform) ==> HasPlatformRow(db.platforms, a.id, f.platform.value))
  }

  /** The ads count() counts: status and the two dates only. */
  predicate CountMatch(f: Filters, a: AdRow)
  {
    && (Given(f.status) ==> a.status == f.status.value)
    && (f.startDate.Some? ==> a.startDate >= f.startDate.value)
    && (f.endDate.Some? ==> a.endDate.Some? && a.endDate.value <= f.endDate.value)
  }

  /** The ads getAdsByDate groups: the platform filter only. */
  predicate ByDateMatch(db: Db, f: Filters, a: AdRow)
  {
    Given(f.platform) ==> HasPlatformRow(db.platforms, a.id, f.platform.value)
  }

  /** The ads getPlatformStats counts: the status filter only. */
  predicate StatsMatch(f: Filters, a: AdRow)
  {
    Given(f.status) ==> a.status == f.status.value
  }

  // ---------------------------------------------------------------------
  // Shape of a built WHERE list

  /** Position of a condition in the order the builders test the filters. */
  function Rank(p: Predicate): nat
  {
    match p
    case StatusEquals(_) => 0
    case StartsOnOrAfter(_) => 1
    case EndsOnOrBefore(_) => 2
    case PageNameILike(_) => 3
    case OnPlatform(_) => 4
  }

  /** The k-th condition uses `$k+1`, bound to the k-th parameter. */
  predicate Numbered(where: seq<Predicate>, params: seq<Param>)
  {
    |where| <= |params| &&
    forall k :: 0 <= k < |where| ==> where[k].ph == k + 1 && KindFits(where[k], params[k])
  }

  /** Conditions come in filter order, so each filter contributes at most one. */
  predicate InFilterOrder(where: seq<Predicate>)
  {
    forall i, j :: 0 <= i < j < |where| ==> Rank(where[i]) < Rank(where[j])
  }

  predicate HasCondition(where: seq<Predicate>, rank: nat)
  {
    exists k :: 0 <= k < |where| && Rank(where[k]) == rank
  }

  /** The status filter is absent, empty or a value of the `adstatus` enum;
      any other text makes each statement that compares `a.status` with it
      fail. */
  predicate StatusFilterValid(f: Filters)
  {
    !Given(f.status) || IsAdStatus(f.status.value)
  }

  /** A statement whose conditions are numbered from 1 and bound to the
      filters' values, with a status condition exactly when the status filter
      is truthy, has valid status parameters exactly when the status filter is
      valid, whatever parameters follow the conditions'. */
  lemma StatusParamsOfBuilt(f: Filters, q: Select, more: seq<Param>)
    requires Numbered(q.where, q.params)
    requires forall k :: 0 <= k < |q.where| ==> q.params[k] == BoundValue(f, q.where[k])
    requires HasCondition(q.where, 0) <==> Given(f.status)
    ensures StatusParamsValid(q.(params := q.params + more)) <==> StatusFilterValid(f)
  {
    var t := q.(params := q.params + more);
    if Given(f.status) {
      var k :| 0 <= k < |q.where| && Rank(q.where[k]) == 0;
      assert t.params[q.where[k].ph - 1] == Text(f.status.value);
    }
  }

  /** The value a builder binds for a condition: the filter value itself,
      except that a page name is wrapped as the contains-pattern `%value%`. */
  function BoundValue(f: Filters, p: Predicate): Param
  {
    match p
    case StatusEquals(_) => Text(Val(f.status))
    case StartsOnOrAfter(_) => Day(DayVal(f.startDate))
    case EndsOnOrBefore(_) => Day(DayVal(f.endDate))
    case PageNameILike(_) => Text(ContainsPattern(Val(f.pageName)))
    case OnPlatform(_) => Text(Val(f.platform))
  }

  /** What the filter of a given rank demands of an ad, bound to its value. */
  predicate DemandedAt(db: Db, f: Filters, rank: nat, a: AdRow)
  {
    match rank
    case 0 => a.status == Val(f.status)
    case 1 => a.startDate >= DayVal(f.startDate)
    case 2 => a.endDate.Some? && a.endDate.value <= DayVal(f.endDate)
    case 3 => ILike(a.pageName, ContainsPattern(Val(f.pageName)))
    case _ => HasPlatformRow(db.platforms, a.id, Val(f.platform))
  }

  predicate Demanded(db: Db, f: Filters, p: Predicate, a: AdRow)
  {
    DemandedAt(db, f, Rank(p), a)
  }

  /** Every truthy filter of rank below `stage` holds for the ad. */
  predicate GivenHoldBelow(db: Db, f: Filters, a: AdRow, stage: nat)
  {
    forall r :: 0 <= r < stage && GivenAt(f, r) ==> DemandedAt(db, f, r, a)
  }

  /** A WHERE list with one condition per truthy filter below `stage` demands
      exactly that those filters hold. */
  lemma DemandsOfBuilt(db: Db, f: Filters, where: seq<Predicate>, a: AdRow, stage: nat)
    requires forall k :: 0 <= k < |where| ==> Rank(where[k]) < stage
    requires forall r :: 0 <= r < stage ==> (HasCondition(where, r) <==> GivenAt(f, r))
    ensures (forall k :: 0 <= k < |where| ==> Demanded(db, f, where[k], a)) <==> GivenHoldBelow(db, f, a, stage)
  {
    if forall k :: 0 <= k < |where| ==> Demanded(db, f, where[k], a) {
      forall r | 0 <= r < stage && GivenAt(f, r) ensures DemandedAt(db, f, r, a) {
        assert HasCondition(where, r);
        var k :| 0 <= k < |where| && Rank(where[k]) == r;
        assert Demanded(db, f, where[k], a);
      }
    }
    if GivenHoldBelow(db, f, a, stage) {
      forall k | 0 <= k < |where| ensures Demanded(db, f, where[k], a) {
        assert HasCondition(where, Rank(where[k]));
      }
    }
  }

  /** A numbered WHERE list whose parameters are the bound filter values
      holds exactly when each of its conditions' demands does. */
  lemma WhereMeaning(db: Db, f: Filters, where: seq<Predicate>, params: seq<Param>, a: AdRow)
    requires Numbered(where, params)
    requires forall k :: 0 <= k < |where| ==> params[k] == BoundValue(f, where[k])
    ensures AllHold(db, where, params, a) <==> forall k :: 0 <= k < |where| ==> Demanded(db, f, where[k], a)
  {
    forall k | 0 <= k < |where|
      ensures Holds(db, where[k], params, a) <==> Demanded(db, f, where[k], a)
    {
      assert params[where[k].ph - 1] == BoundValue(f, where[k]);
    }
  }

  /** The filter of a given rank is truthy. */
  predicate GivenAt(f: Filters, rank: nat)
  {
    match rank
    case 0 => Given(f.status)
    case 1 => f.startDate.Some?
    case 2 => f.endDate.Some?
    case 3 => Given(f.pageName)
    case _ => Given(f.platform)
  }

  /** The builder's state once the filters of rank below `stage` have been
      tested: one numbered condition per truthy filter, in order, each bound to
      its filter's value, and the counter one past the last parameter. */
  predicate Built(f: Filters, where: seq<Predicate>, params: seq<Param>, paramIndex: nat, stage: nat)
  {
    && Numbered(where, params) && |where| == |params| && paramIndex == |params| + 1
    && InFilterOrder(where)
    && (forall k :: 0 <= k < |where| ==> Rank(where[k]) < stage && params[k] == BoundValue(f, where[k]))
    && (forall r :: 0 <= r < stage ==> (HasCondition(where, r) <==> GivenAt(f, r)))
  }

  /** A truthy filter pushes its condition and value and steps the counter. */
  lemma PushStep(f: Filters, where: seq<Predicate>, params: seq<Param>, paramIndex: nat, stage: nat, p: Predicate)
    requires Built(f, where, params, paramIndex, stage)
    requires Rank(p) == stage && GivenAt(f, stage) && p.ph == paramIndex && KindFits(p, BoundValue(f, p))
    ensures Built(f, where + [p], params + [BoundValue(f, p)], paramIndex + 1, stage + 1)
  {
    var w := where + [p];
    forall r | 0 <= r < stage + 1 ensures HasCondition(w, r) <==> GivenAt(f, r) {
      if r < stage && HasCondition(w, r) {
        var k :| 0 <= k < |w| && Rank(w[k]) == r;
        assert k < |where|;
      }
      if r < stage && HasCondition(where, r) {
        var k :| 0 <= k < |where| && Rank(where[k]) == r;
        assert w[k] == where[k];
      }
      if r == stage {
        assert Rank(w[|where|]) == stage;
      }
    }
  }

  /** An absent or falsy filter leaves the state unchanged. */
  lemma SkipStep(f: Filters, where: seq<Predicate>, params: seq<Param>, paramIndex: nat, stage: nat)
    requires Built(f, where, params, paramIndex, stage)
    requires !GivenAt(f, stage)
    ensures Built(f, where, params, paramIndex, stage + 1)
  {
  }

  // ---------------------------------------------------------------------
  // Builders

  /** One `if (filters?.x) { whereConditions.push(...); queryParams.push(...);
      paramIndex++; }` block: a truthy filter appends its condition on the
      current placeholder and its bound value and steps the counter; a falsy
      one changes nothing. */
  method PushIfGiven(f: Filters, stage: nat, p: Predicate, where: seq<Predicate>, params: seq<Param>, paramIndex: nat)
    returns (where': seq<Predicate>, params': seq<Param>, paramIndex': nat)
    requires Built(f, where, params, paramIndex, stage)
    requires Rank(p) == stage && p.ph == paramIndex && KindFits(p, BoundValue(f, p))
    ensures Built(f, where', params', paramIndex', stage + 1)
    ensures GivenAt(f, stage) ==> where' == where + [p] && params' == params + [BoundValue(f, p)]
    ensures !GivenAt(f, stage) ==> where' == where && params' == params
  {
    if GivenAt(f, stage) {
      PushStep(f, where, params, paramIndex, stage, p);
      where', params', paramIndex' := where + [p], params + [BoundValue(f, p)], paramIndex + 1;
    } else {
      SkipStep(f, where, params, paramIndex, stage);
      where', params', paramIndex' := where, params, paramIndex;
    }
  }


  /** findAll's WHERE list: status, startDate, endDate and pageName are tested
      in that order and each truthy one pushes its condition and value. */
  method FindAllWhere(f: Filters) returns (where: seq<Predicate>, params: seq<Param>, paramIndex: nat)
    ensures Built(f, where, params, paramIndex, 4)
  {
    where, params, paramIndex := [], [], 1;
    where, params, paramIndex := PushIfGiven(f, 0, StatusEquals(paramIndex), where, params, paramIndex);
    where, params, paramIndex := PushIfGiven(f, 1, StartsOnOrAfter(paramIndex), where, params, paramIndex);
    where, params, paramIndex := PushIfGiven(f, 2, EndsOnOrBefore(paramIndex), where, params, paramIndex);
    where, params, paramIndex := PushIfGiven(f, 3, PageNameILike(paramIndex), where, params, paramIndex);
  }

  /** findAll's `if (filters?.platform)` block, written out once for each of
      its two statements: a truthy platform adds the INNER JOIN on the next
      placeholder and binds the platform to it; otherwise there is no join and
      the parameters and counter are as they were. */
  method PlatformJoinFor(f: Filters, params: seq<Param>, paramIndex: nat)
    returns (join: Join, params': seq<Param>, paramIndex': nat)
    ensures Given(f.platform) ==> join == PlatformJoin(paramIndex) && params' == params + [Text(f.platform.value)] && paramIndex' == paramIndex + 1
    ensures !Given(f.platform) ==> join == NoJoin && params' == params && paramIndex' == paramIndex
  {
    join, params', paramIndex' := NoJoin, params, paramIndex;
    if Given(f.platform) {
      join := PlatformJoin(paramIndex');
      params' := params' + [Text(f.platform.value)];
      paramIndex' := paramIndex' + 1;
    }
  }

  /** The shape of findAll's count statement: conditions from status,
      startDate, endDate and pageName, in that order, one per truthy filter,
      numbered from 1 and bound to the filter values, then the platform join
      numbered after them and bound to the platform. */
  predicate CountShape(f: Filters, q: Select)
  {
    && Numbered(q.where, q.params) && InFilterOrder(q.where)
    && (forall k :: 0 <= k < |q.where| ==> Rank(q.where[k]) < 4 && q.params[k] == BoundValue(f, q.where[k]))
    && (HasCondition(q.where, 0) <==> Given(f.status))
    && (HasCondition(q.where, 1) <==> f.startDate.Some?)
    && (HasCondition(q.where, 2) <==> f.endDate.Some?)
    && (HasCondition(q.where, 3) <==> Given(f.pageName))
    && q.join == (if Given(f.platform) then PlatformJoin(|q.where| + 1) else NoJoin)
    && |q.params| == |q.where| + (if Given(f.platform) then 1 else 0)
    && (Given(f.platform) ==> q.params[|q.where|] == Text(f.platform.value))
  }

  /**
   * findAll's two statements: the count statement and the page statement,
   * which repeats its conditions and join and binds LIMIT and OFFSET to the
   * next two placeholders.
   */
  method FindAllQueries(f: Filters, limit: int, offset: int)
    returns (countQ: Select, adsQ: Select, limitPh: nat, offsetPh: nat)
    ensures CountShape(f, countQ)
    ensures adsQ == countQ.(params := countQ.params + [Int(limit), Int(offset)])
    ensures limitPh == |countQ.params| + 1 && offsetPh == limitPh + 1
  {
    var where, params, paramIndex := FindAllWhere(f);

    var join, countParams, countParamIndex := PlatformJoinFor(f, params, paramIndex);
    countQ := Select(join, where, countParams);

    var adsJoin, adsParams, adsParamIndex := PlatformJoinFor(f, params, paramIndex);
    adsParams := adsParams + [Int(limit), Int(offset)];
    adsQ := Select(adsJoin, where, adsParams);
    limitPh, offsetPh := adsParamIndex, adsParamIndex + 1;

    BuiltCountShape(f, where, params, paramIndex, countQ);
  }

  /** Built conditions followed by the platform block form the count statement. */
  lemma BuiltCountShape(f: Filters, where: seq<Predicate>, params: seq<Param>, paramIndex: nat, q: Select)
    requires Built(f, where, params, paramIndex, 4)
    requires q.where == where
    requires Given(f.platform) ==> q.join == PlatformJoin(paramIndex) && q.params == params + [Text(f.platform.value)]
    requires !Given(f.platform) ==> q.join == NoJoin && q.params == params
    ensures CountShape(f, q)
  {
    assert forall k :: 0 <= k < |where| ==> q.params[k] == params[k];
  }

  /** The count statement binds, and so does the page statement. */
  lemma CountShapeBinds(f: Filters, q: Select, limit: int, offset: int)
    requires CountShape(f, q)
    ensures WellBound(q, [])
    ensures WellBound(q.(params := q.params + [Int(limit), Int(offset)]), [|q.params| + 1, |q.params| + 2])
  {
    BuiltWellBound(q, [], f);
    PageBinds(f, q, limit, offset);
  }

  lemma PageBinds(f: Filters, q: Select, limit: int, offset: int)
    requires Numbered(q.where, q.params)
    requires |q.params| == |q.where| + (if q.join.PlatformJoin? then 1 else 0)
    requires q.join.PlatformJoin? ==> q.join.ph == |q.where| + 1 && q.params[|q.where|].Text?
    ensures WellBound(q.(params := q.params + [Int(limit), Int(offset)]), [|q.params| + 1, |q.params| + 2])
  {
    var page := q.(params := q.params + [Int(limit), Int(offset)]);
    assert forall k :: 0 <= k < |q.params| ==> page.params[k] == q.params[k];
    BuiltWellBound(page, [|q.params| + 1, |q.params| + 2], f);
  }

  /** The count statement selects exactly the ads meeting every truthy filter. */
  lemma CountShapeSelects(f: Filters, q: Select)
    requires CountShape(f, q)
    ensures forall db, a :: RowSelected(db, q, a) <==> FindAllMatch(db, f, a)
  {
    forall db, a ensures RowSelected(db, q, a) <==> FindAllMatch(db, f, a) {
      WhereMeaning(db, f, q.where, q.params, a);
      FindAllDemands(db, f, q, a);
    }
  }

  /** Run against a database, the count statement counts the matching ads,
      unless the status filter is outside the enum. */
  lemma CountStatementRuns(db: Db, f: Filters, q: Select)
    requires CountShape(f, q)
    ensures CountQuery(db, q) ==
            if StatusFilterValid(f) then Success(Some(|MatchingAds(db, f)|)) else Failure(InvalidEnumValue)
  {
    StatusParamsOfBuilt(f, q, []);
    assert q.(params := q.params + []) == q;
    CountShapeBinds(f, q, 0, 0);
    CountShapeSelects(f, q);
    FilterSame(db.ads, (a: AdRow) => RowSelected(db, q, a), (a: AdRow) => FindAllMatch(db, f, a));
  }

  /** Run against a database, the page statement returns the window of the
      matching ads, newest first, unless the status filter is outside the
      enum or LIMIT or OFFSET is negative or outside bigint. */
  lemma PageStatementRuns(db: Db, f: Filters, q: Select, limit: int, offset: int)
    requires CountShape(f, q)
    ensures PageQuery(db, q.(params := q.params + [Int(limit), Int(offset)]), |q.params| + 1, |q.params| + 2) ==
            if !StatusFilterValid(f) then Failure(InvalidEnumValue)
            else if LimitOffsetError(limit, offset).Some? then Failure(LimitOffsetError(limit, offset).value)
            else Success(Window(NewestFirst(MatchingAds(db, f)), offset, limit))
  {
    var page := q.(params := q.params + [Int(limit), Int(offset)]);
    StatusParamsOfBuilt(f, q, [Int(limit), Int(offset)]);
    CountShapeBinds(f, q, limit, offset);
    CountShapeSelects(f, q);
    assert page.params[|q.params|] == Int(limit) && page.params[|q.params| + 1] == Int(offset);
    AppendedParamsKeepSelection(db, q, [Int(limit), Int(offset)], db.ads);
    FilterSame(db.ads, (a: AdRow) => RowSelected(db, q, a), (a: AdRow) => FindAllMatch(db, f, a));
  }

  /** A statement whose WHERE list is numbered from 1, followed by at most a
      join placeholder and then integer placeholders, one per parameter, binds. */
  lemma BuiltWellBound(q: Select, extra: seq<nat>, f: Filters)
    requires Numbered(q.where, q.params)
    requires |q.params| == |q.where| + (if q.join.PlatformJoin? then 1 else 0) + |extra|
    requires q.join.PlatformJoin? ==> q.join.ph == |q.where| + 1 && q.params[|q.where|].Text?
    requires forall i :: 0 <= i < |extra| ==>
      extra[i] == |q.params| - |extra| + i + 1 && q.params[extra[i] - 1].Int?
    ensures WellBound(q, extra)
  {
    var phs := Placeholders(q, extra);
    var n := |q.where|;
    var j := if q.join.PlatformJoin? then 1 else 0;
    assert |phs| == |q.params|;
    forall k | 1 <= k <= |q.params| ensures k in phs {
      if k <= n {
        assert phs[k - 1] == q.where[k - 1].ph;
      } else if k <= n + j {
        assert phs[k - 1] == q.join.ph;
      } else {
        assert phs[k - 1] == extra[k - 1 - n - j];
      }
    }
  }

  /** findAll's conditions and join demand exactly FindAllMatch. */
  lemma FindAllDemands(db: Db, f: Filters, q: Select, a: AdRow)
    requires forall k :: 0 <= k < |q.where| ==> Rank(q.where[k]) < 4
    requires forall r :: 0 <= r < 4 ==> (HasCondition(q.where, r) <==> GivenAt(f, r))
    requires q.join == (if Given(f.platform) then PlatformJoin(|q.where| + 1) else NoJoin)
    requires Given(f.platform) ==> |q.where| < |q.params| && q.params[|q.where|] == Text(f.platform.value)
    requires AllHold(db, q.where, q.params, a) <==> forall k :: 0 <= k < |q.where| ==> Demanded(db, f, q.where[k], a)
    ensures RowSelected(db, q, a) <==> FindAllMatch(db, f, a)
  {
    DemandsOfBuilt(db, f, q.where, a, 4);
    assert GivenHoldBelow(db, f, a, 4) <==>
      (GivenAt(f, 0) ==> DemandedAt(db, f, 0, a)) && (GivenAt(f, 1) ==> DemandedAt(db, f, 1, a)) &&
      (GivenAt(f, 2) ==> DemandedAt(db, f, 2, a)) && (GivenAt(f, 3) ==> DemandedAt(db, f, 3, a));
  }

  /** count()'s WHERE list: status, startDate and endDate, in that order. */
  method CountWhere(f: Filters) returns (where: seq<Predicate>, params: seq<Param>, paramIndex: nat)
    ensures Built(f, where, params, paramIndex, 3)
  {
    where, params, paramIndex := [], [], 1;
    where, params, paramIndex := PushIfGiven(f, 0, StatusEquals(paramIndex), where, params, paramIndex);
    where, params, paramIndex := PushIfGiven(f, 1, StartsOnOrAfter(paramIndex), where, params, paramIndex);
    where, params, paramIndex := PushIfGiven(f, 2, EndsOnOrBefore(paramIndex), where, params, paramIndex);
  }

  /** count()'s statement: `SELECT COUNT(*) FROM ads` with conditions from
      status, startDate and endDate only; platform and pageName are not read. */
  method CountQueryFor(f: Filters) returns (q: Select)
    ensures q.join == NoJoin && |q.where| == |q.params|
    ensures Numbered(q.where, q.params) && InFilterOrder(q.where)
    ensures forall k :: 0 <= k < |q.where| ==> Rank(q.where[k]) < 3 && q.params[k] == BoundValue(f, q.where[k])
    ensures HasCondition(q.where, 0) <==> Given(f.status)
    ensures HasCondition(q.where, 1) <==> f.startDate.Some?
    ensures HasCondition(q.where, 2) <==> f.endDate.Some?
    ensures WellBound(q, [])
    ensures StatusParamsValid(q) <==> StatusFilterValid(f)
    ensures forall db, a :: RowSelected(db, q, a) <==> CountMatch(f, a)
  {
    var where, params, paramIndex := CountWhere(f);
    q := Select(NoJoin, where, params);
    BuiltWellBound(q, [], f);
    StatusParamsOfBuilt(f, q, []);
    assert q.(params := q.params + []) == q;
    forall db, a ensures RowSelected(db, q, a) <==> CountMatch(f, a) {
      WhereMeaning(db, f, where, params, a);
      CountDemands(db, f, q, a);
    }
  }

  /** count()'s conditions demand exactly CountMatch. */
  lemma CountDemands(db: Db, f: Filters, q: Select, a: AdRow)
    requires q.join == NoJoin
    requires forall k :: 0 <= k < |q.where| ==> Rank(q.where[k]) < 3
    requires forall r :: 0 <= r < 3 ==> (HasCondition(q.where, r) <==> GivenAt(f, r))
    requires AllHold(db, q.where, q.params, a) <==> forall k :: 0 <= k < |q.where| ==> Demanded(db, f, q.where[k], a)
    ensures RowSelected(db, q, a) <==> CountMatch(f, a)
  {
    DemandsOfBuilt(db, f, q.where, a, 3);
    assert GivenHoldBelow(db, f, a, 3) <==>
      (GivenAt(f, 0) ==> DemandedAt(db, f, 0, a)) && (GivenAt(f, 1) ==> DemandedAt(db, f, 1, a)) &&
      (GivenAt(f, 2) ==> DemandedAt(db, f, 2, a));
  }

  /** A statement without a join and with a single condition selects an ad
      exactly when that condition holds. */
  lemma OneConditionSelects(db: Db, p: Predicate, params: seq<Param>, a: AdRow)
    ensures RowSelected(db, Select(NoJoin, [p], params), a) <==> Holds(db, p, params, a)
  {
    assert [p][0] == p;
  }

  /** getAdsByDate's statement: only the platform filter is read, as an
      `a.id IN (...)` condition on `$1`. */
  method AdsByDateQueryFor(f: Filters) returns (q: Select)
    ensures q.join == NoJoin && |q.where| == |q.params| && Numbered(q.where, q.params)
    ensures forall k :: 0 <= k < |q.where| ==> q.where[k].OnPlatform? && q.params[k] == BoundValue(f, q.where[k])
    ensures |q.where| == (if Given(f.platform) then 1 else 0)
    ensures WellBound(q, [])
    ensures forall db, a :: RowSelected(db, q, a) <==> ByDateMatch(db, f, a)
  {
    if Given(f.platform) {
      q := Select(NoJoin, [OnPlatform(1)], [Text(f.platform.value)]);
      forall db: Db, a: AdRow ensures RowSelected(db, q, a) <==> ByDateMatch(db, f, a) {
        OneConditionSelects(db, q.where[0], q.params, a);
      }
    } else {
      q := Select(NoJoin, [], []);
    }
    BuiltWellBound(q, [], f);
  }

  /** getPlatformStats's statement: only the status filter is read. */
  method PlatformStatsQueryFor(f: Filters) returns (q: Select)
    ensures q.join == NoJoin && |q.where| == |q.params| && Numbered(q.where, q.params)
    ensures forall k :: 0 <= k < |q.where| ==> q.where[k].StatusEquals? && q.params[k] == BoundValue(f, q.where[k])
    ensures |q.where| == (if Given(f.status) then 1 else 0)
    ensures WellBound(q, [])
    ensures StatusParamsValid(q) <==> StatusFilterValid(f)
    ensures forall db, a :: RowSelected(db, q, a) <==> StatsMatch(f, a)
  {
    if Given(f.status) {
      q := Select(NoJoin, [StatusEquals(1)], [Text(f.status.value)]);
      forall db: Db, a: AdRow ensures RowSelected(db, q, a) <==> StatsMatch(f, a) {
        OneConditionSelects(db, q.where[0], q.params, a);
      }
    } else {
      q := Select(NoJoin, [], []);
    }
    BuiltWellBound(q, [], f);
  }

  // ---------------------------------------------------------------------
  // Reads

  /** A version as returned: a falsy asset type is reported as null. */
  function WithAssetTypeOrNull(v: VersionRow): (r: VersionRow)
    ensures r.(assetType := v.assetType) == v
    ensures r.assetType.Some? <==> Given(v.assetType)
    ensures r.assetType.Some? ==> r.assetType == v.assetType
  {
    v.(assetType := if Given(v.assetType) then v.assetType else None)
  }

  /** getVersionsByAdId: the ad's versions, asset type normalised. */
  function VersionsByAdId(db: Db, adRef: string): seq<VersionRow>
  {
    var q := VersionsQuery(db, adRef);
    seq(|q|, i requires 0 <= i < |q| => WithAssetTypeOrNull(q[i]))
  }

  /** The versions attached to an ad come in ascending version-number order,
      one per version row of the ad. */
  lemma VersionsByAdIdOrdered(db: Db, adRef: string)
    ensures |VersionsByAdId(db, adRef)| == |VersionRowsOf(db.versions, adRef)|
    ensures forall i, j :: 0 <= i < j < |VersionsByAdId(db, adRef)| ==>
              VersionsByAdId(db, adRef)[i].versionNumber <= VersionsByAdId(db, adRef)[j].versionNumber
  {
    VersionsQueryOrdered(db, adRef);
  }

  /** They are exactly the ad's version rows, with an empty asset type as null. */
  lemma {:induction false} VersionsByAdIdRows(db: Db, adRef: string)
    ensures forall v :: v in VersionsByAdId(db, adRef) ==>
              v.adRef == adRef && (v.assetType.Some? ==> v.assetType.value != "")
    ensures forall w :: w in db.versions && w.adRef == adRef ==> WithAssetTypeOrNull(w) in VersionsByAdId(db, adRef)
  {
    var q := VersionsQuery(db, adRef);
    var r := VersionsByAdId(db, adRef);
    forall v | v in r ensures v.adRef == adRef && (v.assetType.Some? ==> v.assetType.value != "") {
      var i :| 0 <= i < |r| && r[i] == v;
      SortByMember(VersionRowsOf(db.versions, adRef), VersionNumberLe, q[i]);
    }
    forall w | w in db.versions && w.adRef == adRef ensures WithAssetTypeOrNull(w) in r {
      SortByMember(VersionRowsOf(db.versions, adRef), VersionNumberLe, w);
      var i :| 0 <= i < |q| && q[i] == w;
      assert r[i] == WithAssetTypeOrNull(w);
    }
  }

  /** An ad with its versions and platforms attached. */
  datatype AdWithRelations = AdWithRelations(ad: AdRow, versions: seq<VersionRow>, platforms: seq<PlatformRow>)

  function WithRelations(db: Db, a: AdRow): AdWithRelations
  {
    AdWithRelations(a, VersionsByAdId(db, a.id), PlatformsQuery(db, a.id))
  }

  /** findById: null when no ad has the id, otherwise that ad with its relations. */
  function FindById(db: Db, id: string): (r: Option<AdWithRelations>)
    ensures r.None? <==> forall a :: a in db.ads ==> a.id != id
    ensures r.Some? ==> r.value.ad in db.ads && r.value.ad.id == id && r.value == WithRelations(db, r.value.ad)
  {
    match AdWithId(db.ads, id)
    case None => None
    case Some(a) => Some(WithRelations(db, a))
  }

  /** findByAdId: the same lookup on the library id. */
  function FindByAdId(db: Db, adId: string): (r: Option<AdWithRelations>)
    ensures r.None? <==> forall a :: a in db.ads ==> a.adId != adId
    ensures r.Some? ==> r.value.ad in db.ads && r.value.ad.adId == adId && r.value == WithRelations(db, r.value.ad)
  {
    match AdWithAdId(db.ads, adId)
    case None => None
    case Some(a) => Some(WithRelations(db, a))
  }

  /** The caller's page and limit; the repository substitutes 1 and 50 for 0. */
  datatype Pagination = Pagination(page: int, limit: int)

  function PageOf(p: Option<Pagination>): int
  {
    if p.Some? && p.value.page != 0 then p.value.page else 1
  }

  function LimitOf(p: Option<Pagination>): int
  {
    if p.Some? && p.value.limit != 0 then p.value.limit else 50
  }

  /** `Math.ceil(n / d)` for a positive divisor. */
  function CeilDiv(n: nat, d: nat): (r: nat)
    requires d > 0
    ensures n <= r * d
    ensures n == 0 <==> r == 0
    ensures r > 0 ==> (r - 1) * d < n
  {
    if n == 0 then 0 else 1 + CeilDiv(if n <= d then 0 else n - d, d)
  }

  datatype PaginatedAds = PaginatedAds(data: seq<AdWithRelations>, total: nat, page: int, limit: int, totalPages: nat)

  /** The ads findAll's filters select, in storage order. */
  function MatchingAds(db: Db, f: Filters): seq<AdRow>
  {
    Filter(db.ads, (a: AdRow) => FindAllMatch(db, f, a))
  }

  function WithRelationsAll(db: Db, ads: seq<AdRow>): seq<AdWithRelations>
  {
    seq(|ads|, i requires 0 <= i < |ads| => WithRelations(db, ads[i]))
  }

  /** What findAll returns: the matching ads newest first, the page's window
      of them with relations, their number and the number of pages. A negative
      LIMIT or OFFSET makes the statement fail. */
  function FindAllSpec(db: Db, f: Filters, pagination: Option<Pagination>): Result<PaginatedAds, StoreError>
  {
    var page := PageOf(pagination);
    var limit := LimitOf(pagination);
    var offset := (page - 1) * limit;
    if !StatusFilterValid(f) then Failure(InvalidEnumValue)
    else if LimitOffsetError(limit, offset).Some? then Failure(LimitOffsetError(limit, offset).value)
    else
      var matching := MatchingAds(db, f);
      Success(PaginatedAds(
        WithRelationsAll(db, Window(NewestFirst(matching), offset, limit)),
        |matching|, page, limit, CeilDiv(|matching|, limit)))
  }

  /** findAll: the count statement, then the page statement, then relations
      for each ad on the page. */
  method FindAll(db: Db, f: Filters, pagination: Option<Pagination>) returns (r: Result<PaginatedAds, StoreError>)
    ensures r == FindAllSpec(db, f, pagination)
  {
    var page := PageOf(pagination);
    var limit := LimitOf(pagination);
    var offset := (page - 1) * limit;

    var countQ, adsQ, limitPh, offsetPh := FindAllQueries(f, limit, offset);
    CountStatementRuns(db, f, countQ);
    PageStatementRuns(db, f, countQ, limit, offset);
    var counted := CountQuery(db, countQ);
    if counted.Failure? {
      return Failure(counted.error);
    }
    var total: nat := if counted.value.Some? then counted.value.value else 0;

    var paged := PageQuery(db, adsQ, limitPh, offsetPh);
    if paged.Failure? {
      return Failure(paged.error);
    }
    var ads := paged.value;
    r := Success(PaginatedAds(WithRelationsAll(db, ads), total, page, limit, CeilDiv(total, limit)));
  }

  /** count(): the number of ads meeting the status and date filters. */
  function CountOf(db: Db, f: Filters): nat
  {
    |Filter(db.ads, (a: AdRow) => CountMatch(f, a))|
  }

  /** count() fails for a status outside the enum and otherwise returns
      CountOf. */
  method Count(db: Db, f: Filters) returns (r: Result<nat, StoreError>)
    ensures r == if StatusFilterValid(f) then Success(CountOf(db, f)) else Failure(InvalidEnumValue)
  {
    var q := CountQueryFor(f);
    var counted := CountQuery(db, q);
    if counted.Failure? {
      return Failure(counted.error);
    }
    r := Success(if counted.value.Some? then counted.value.value else 0);
    FilterSame(db.ads, (a: AdRow) => RowSelected(db, q, a), (a: AdRow) => CountMatch(f, a));
  }

  /** getAdsByDate: by-date buckets of the ads on the platform, if one is given. */
  function AdsByDateOf(db: Db, f: Filters): seq<DateBucket>
  {
    BucketsOf(Filter(db.ads, (a: AdRow) => ByDateMatch(db, f, a)))
  }

  method GetAdsByDate(db: Db, f: Filters) returns (r: seq<DateBucket>)
    ensures r == AdsByDateOf(db, f)
  {
    var q := AdsByDateQueryFor(f);
    var grouped := ByDateQuery(db, q);
    assert grouped.Success?;
    r := grouped.value;
    FilterSame(db.ads, (a: AdRow) => RowSelected(db, q, a), (a: AdRow) => ByDateMatch(db, f, a));
  }

  /** getPlatformStats: per-platform counts over the ads with the given status. */
  function PlatformStatsOf(db: Db, f: Filters): seq<PlatformCount>
  {
    PlatformCounts(RowsOfAds(db.platforms, IdsOf(Filter(db.ads, (a: AdRow) => StatsMatch(f, a)))))
  }

  /** getPlatformStats fails for a status outside the enum and otherwise
      returns PlatformStatsOf. */
  method GetPlatformStats(db: Db, f: Filters) returns (r: Result<seq<PlatformCount>, StoreError>)
    ensures r == if StatusFilterValid(f) then Success(PlatformStatsOf(db, f)) else Failure(InvalidEnumValue)
  {
    var q := PlatformStatsQueryFor(f);
    var grouped := PlatformCountQuery(db, q);
    if grouped.Failure? {
      return Failure(grouped.error);
    }
    r := grouped;
    FilterSame(db.ads, (a: AdRow) => RowSelected(db, q, a), (a: AdRow) => StatsMatch(f, a));
  }

  // ---------------------------------------------------------------------
  // Properties of the reads

  /** findAll fails exactly when the status filter is outside the enum or
      the defaulted limit or the derived offset is negative or beyond bigint,
      the enum error first and the range error next;
      otherwise it echoes the defaulted page and limit (1 and 50 in place of
      absent or 0), reports the number of matching ads as total, and derives
      totalPages as the ceiling of total / limit. */
  lemma FindAllOutcome(db: Db, f: Filters, pagination: Option<Pagination>)
    ensures var page := if pagination.Some? && pagination.value.page != 0 then pagination.value.page else 1;
            var limit := if pagination.Some? && pagination.value.limit != 0 then pagination.value.limit else 50;
            var offset := (page - 1) * limit;
            && (FindAllSpec(db, f, pagination).Failure? <==>
                  || !StatusFilterValid(f)
                  || limit < 0 || offset < 0 || limit > 0x7FFF_FFFF_FFFF_FFFF || offset > 0x7FFF_FFFF_FFFF_FFFF)
            && (FindAllSpec(db, f, pagination).Failure? ==>
                  FindAllSpec(db, f, pagination).error ==
                    if !StatusFilterValid(f) then InvalidEnumValue
                    else if InBigint(limit) && InBigint(offset) then NegativeLimitOrOffset
                    else OutOfBigintRange)
            && (FindAllSpec(db, f, pagination).Success? ==>
                  var r := FindAllSpec(db, f, pagination).value;
                  && r.page == page && r.limit == limit && limit > 0
                  && r.total == |MatchingAds(db, f)|
                  && r.total <= r.totalPages * limit
                  && (r.totalPages > 0 ==> (r.totalPages - 1) * limit < r.total))
  {
  }

  /** The returned page holds at most `limit` ads, each matching the filters
      and carrying its own relations. */
  lemma FindAllPageMembers(db: Db, f: Filters, pagination: Option<Pagination>)
    requires FindAllSpec(db, f, pagination).Success?
    ensures |FindAllSpec(db, f, pagination).value.data| <= FindAllSpec(db, f, pagination).value.limit
    ensures forall d :: d in FindAllSpec(db, f, pagination).value.data ==>
              d.ad in db.ads && FindAllMatch(db, f, d.ad) && d == WithRelations(db, d.ad)
  {
    var r := FindAllSpec(db, f, pagination).value;
    var offset := (PageOf(pagination) - 1) * LimitOf(pagination);
    var shown := Window(NewestFirst(MatchingAds(db, f)), offset, LimitOf(pagination));
    assert r.data == WithRelationsAll(db, shown);
    forall d | d in r.data ensures d.ad in db.ads && FindAllMatch(db, f, d.ad) && d == WithRelations(db, d.ad) {
      var i :| 0 <= i < |r.data| && r.data[i] == d;
      assert d == WithRelations(db, shown[i]);
      WindowNewestFirstIn(MatchingAds(db, f), offset, LimitOf(pagination), i);
    }
  }

  /** The returned page lists its ads newest first. */
  lemma FindAllPageOrder(db: Db, f: Filters, pagination: Option<Pagination>)
    requires FindAllSpec(db, f, pagination).Success?
    ensures forall i, j :: 0 <= i < j < |FindAllSpec(db, f, pagination).value.data| ==>
              FindAllSpec(db, f, pagination).value.data[i].ad.createdAt >=
              FindAllSpec(db, f, pagination).value.data[j].ad.createdAt
  {
    var data := FindAllSpec(db, f, pagination).value.data;
    var offset := (PageOf(pagination) - 1) * LimitOf(pagination);
    var shown := Window(NewestFirst(MatchingAds(db, f)), offset, LimitOf(pagination));
    assert data == WithRelationsAll(db, shown);
    WindowNewestFirst(MatchingAds(db, f), offset, LimitOf(pagination));
    forall i, j | 0 <= i < j < |data| ensures data[i].ad.createdAt >= data[j].ad.createdAt {
      assert data[i].ad == shown[i] && data[j].ad == shown[j];
    }
  }

  /** Where page `page` (counted from 1) of `limit` items starts. */
  function PageStart(page: int, limit: nat): nat
  {
    if page >= 1 then MulMonotone(0, page - 1, limit); (page - 1) * limit else 0
  }

  /** With a positive limit and a page from 1, findAll succeeds exactly when
      the status filter is valid and the limit and the page's start fit in
      bigint, and then its page is the
      page-th window of `limit` matching ads, newest first, each with its
      relations. */
  lemma FindAllPageIsWindow(db: Db, f: Filters, page: int, limit: nat)
    requires page >= 1 && limit > 0
    ensures FindAllSpec(db, f, Some(Pagination(page, limit))).Success? <==>
            StatusFilterValid(f) && limit <= 0x7FFF_FFFF_FFFF_FFFF && PageStart(page, limit) <= 0x7FFF_FFFF_FFFF_FFFF
    ensures FindAllSpec(db, f, Some(Pagination(page, limit))).Success? ==>
            FindAllSpec(db, f, Some(Pagination(page, limit))).value.data ==
            WithRelationsAll(db, Window(NewestFirst(MatchingAds(db, f)), PageStart(page, limit), limit))
  {
    MulMonotone(0, page - 1, limit);
  }

  /** The first n pages of `limit` items, one after the other. */
  function PagesUpTo<T>(s: seq<T>, limit: nat, n: nat): seq<T>
  {
    if n == 0 then [] else PagesUpTo(s, limit, n - 1) + Window(s, (n - 1) * limit, limit)
  }

  lemma {:induction false} PagesUpToPrefix<T>(s: seq<T>, limit: nat, n: nat)
    requires limit > 0
    ensures n * limit <= |s| ==> PagesUpTo(s, limit, n) == s[..n * limit]
    ensures n * limit > |s| && (n - 1) * limit <= |s| ==> PagesUpTo(s, limit, n) == s
  {
    if n > 0 {
      var lo := (n - 1) * limit;
      assert lo + limit == n * limit;
      PagesUpToPrefix(s, limit, n - 1);
      if lo <= |s| {
        assert PagesUpTo(s, limit, n) == s[..lo] + Window(s, lo, limit);
        if lo + limit <= |s| {
          assert s[..lo + limit] == s[..lo] + s[lo..lo + limit];
        } else {
          assert Window(s, lo, limit) == s[lo..];
          assert s == s[..lo] + s[lo..];
        }
      }
    }
  }

  lemma MulMonotone(a: int, b: int, c: nat)
    requires a <= b
    ensures a * c <= b * c
  {
  }

  /** Paging with a positive limit through pages 1..totalPages yields every
      item exactly once, in order. */
  lemma PagesPartition<T>(s: seq<T>, limit: nat)
    requires limit > 0
    ensures PagesUpTo(s, limit, CeilDiv(|s|, limit)) == s
  {
    var n := CeilDiv(|s|, limit);
    if n > 0 {
      PagesUpToPrefix(s, limit, n);
      if n * limit == |s| {
        assert s[..n * limit] == s;
      }
    }
  }

  /** Pages 1..|orders| when each page is its own statement and the engine
      returns the matching ads to the k-th one (from 0) in order `orders[k]`. */
  function PagesOfStatements(orders: seq<seq<AdRow>>, limit: nat): seq<AdRow>
  {
    if orders == [] then []
    else
      var n := |orders| - 1;
      PagesOfStatements(orders[..n], limit) + Window(orders[n], n * limit, limit)
  }

  /** Statements that all return the same order page through that one order. */
  lemma {:induction false} SameOrderPages(orders: seq<seq<AdRow>>, o: seq<AdRow>, limit: nat)
    requires forall k :: 0 <= k < |orders| ==> orders[k] == o
    ensures PagesOfStatements(orders, limit) == PagesUpTo(o, limit, |orders|)
  {
    if orders != [] {
      SameOrderPages(orders[..|orders| - 1], o, limit);
    }
  }

  /** As written, ORDER BY a.created_at DESC leaves ties to the engine: with
      two ads created at the same instant and a limit of 1, the statement for
      page 1 may return them as [a, b] and the one for page 2 as [b, a], so
      the two pages list `a` twice and never `b`. */
  lemma TiedPagesSkipAnAd()
    ensures var a := AdRow("1", "100", ACTIVE, 0, None, "Acme", None, 7, 7);
            var b := AdRow("2", "200", ACTIVE, 0, None, "Acme", None, 7, 7);
            && CeilDiv(2, 1) == 2
            && MayReturnNewestFirst([a, b], [a, b])
            && MayReturnNewestFirst([a, b], [b, a])
            && PagesOfStatements([[a, b], [b, a]], 1) == [a, a]
            && b !in PagesOfStatements([[a, b], [b, a]], 1)
  {
    var a := AdRow("1", "100", ACTIVE, 0, None, "Acme", None, 7, 7);
    var b := AdRow("2", "200", ACTIVE, 0, None, "Acme", None, 7, 7);
    assert multiset([b, a]) == multiset([a, b]);
    assert [[a, b], [b, a]][..1] == [[a, b]];
    assert PagesOfStatements([[a, b]], 1) == [a];
  }

  /** As written, paging through separate statements lists every matching ad
      exactly once, newest first, when no two of them share a created_at,
      whatever order each statement's engine picks. */
  lemma DistinctCreatedPagesPartition(ads: seq<AdRow>, orders: seq<seq<AdRow>>, limit: nat)
    requires limit > 0 && DistinctCreated(ads)
    requires |orders| == CeilDiv(|ads|, limit)
    requires forall k :: 0 <= k < |orders| ==> MayReturnNewestFirst(ads, orders[k])
    ensures PagesOfStatements(orders, limit) == NewestFirst(ads)
  {
    forall k | 0 <= k < |orders| ensures orders[k] == NewestFirst(ads) {
      NewestFirstDetermined(ads, orders[k]);
    }
    SameOrderPages(orders, NewestFirst(ads), limit);
    PagesPartition(NewestFirst(ads), limit);
  }

  /** Corrected: with ties broken by id (ORDER BY a.created_at DESC, a.id),
      paging through separate statements lists every matching ad exactly
      once, in that order, whatever orders the engine picks. */
  lemma TieBrokenPagesPartition(ads: seq<AdRow>, orders: seq<seq<AdRow>>, limit: nat)
    requires limit > 0 && UniqueIds(ads)
    requires |orders| == CeilDiv(|ads|, limit)
    requires forall k :: 0 <= k < |orders| ==> MayReturnNewestThenId(ads, orders[k])
    ensures multiset(PagesOfStatements(orders, limit)) == multiset(ads)
    ensures OrderedBy(PagesOfStatements(orders, limit), NewestThenId)
  {
    var o := NewestThenIdExists(ads);
    forall k | 0 <= k < |orders| ensures orders[k] == o {
      NewestThenIdDetermined(ads, orders[k], o);
    }
    assert |o| == |multiset(o)| == |ads|;
    SameOrderPages(orders, o, limit);
    PagesPartition(o, limit);
  }

  /** A page after the last one is empty. */
  lemma PageAfterLastIsEmpty<T>(s: seq<T>, limit: nat, page: int)
    requires limit > 0 && page > CeilDiv(|s|, limit)
    ensures Window(s, (page - 1) * limit, limit) == []
  {
    MulMonotone(CeilDiv(|s|, limit), page - 1, limit);
  }

  /** The ads with the given status that some platform row puts on `p`. */
  function AdsWithStatusOn(db: Db, f: Filters, p: string): set<string>
  {
    set a | a in db.ads && StatsMatch(f, a) && HasPlatformRow(db.platforms, a.id, p) :: a.id
  }

  /** getPlatformStats reports, for each platform that has an ad with the given
      status, the number of distinct such ads on it, at least one; it reports
      no other platform, no platform twice, and larger counts first. */
  lemma PlatformStatsSpec(db: Db, f: Filters, p: string)
    ensures forall c :: c in PlatformStatsOf(db, f) ==> c.count == |AdsWithStatusOn(db, f, c.platform)| && c.count >= 1
    ensures AdsWithStatusOn(db, f, p) != {} <==> exists c :: c in PlatformStatsOf(db, f) && c.platform == p
    ensures DistinctBy(PlatformStatsOf(db, f), (c: PlatformCount) => c.platform)
    ensures forall i, j :: 0 <= i < j < |PlatformStatsOf(db, f)| ==>
              PlatformStatsOf(db, f)[i].count >= PlatformStatsOf(db, f)[j].count
  {
    var kept := Filter(db.ads, (a: AdRow) => StatsMatch(f, a));
    var rows := RowsOfAds(db.platforms, IdsOf(kept));
    forall q ensures AdsOn(rows, q) == AdsWithStatusOn(db, f, q) {
      forall id | id in AdsOn(rows, q) ensures id in AdsWithStatusOn(db, f, q) {
        var r :| r in rows && r.platform == q && r.adRef == id;
        var a :| a in kept && a.id == id;
        assert HasPlatformRow(db.platforms, a.id, q);
      }
      forall id | id in AdsWithStatusOn(db, f, q) ensures id in AdsOn(rows, q) {
        var a :| a in db.ads && StatsMatch(f, a) && HasPlatformRow(db.platforms, a.id, q) && a.id == id;
        var r :| r in db.platforms && r.adRef == a.id && r.platform == q;
        assert a in kept;
        assert r in rows;
      }
    }
    PlatformCountsExact(rows);
    PlatformCountsComplete(rows, p);
    PlatformCountsOrdered(rows);
  }

  /** The ads getAdsByDate groups: those on the platform, if one is given. */
  function AdsOnPlatform(db: Db, f: Filters): seq<AdRow>
  {
    Filter(db.ads, (a: AdRow) => ByDateMatch(db, f, a))
  }

  /** getAdsByDate reports the days in strictly ascending order; for each day
      it reports nothing when no grouped ad starts on it and otherwise that
      day's total, ACTIVE and INACTIVE counts, every bucket counting at least
      one ad with ACTIVE and INACTIVE disjoint; the totals add up to the
      number of grouped ads. */
  lemma AdsByDateSpec(db: Db, f: Filters, d: int)
    ensures StrictlyAscending(AdsByDateOf(db, f))
    ensures BucketAt(AdsByDateOf(db, f), d) == ExpectedBucket(AdsOnPlatform(db, f), d)
    ensures forall b :: b in AdsByDateOf(db, f) ==> b.count >= 1 && b.active + b.inactive <= b.count
    ensures SumCounts(AdsByDateOf(db, f)) == |AdsOnPlatform(db, f)|
  {
    BucketsOfSpec(AdsOnPlatform(db, f));
    BucketsAreNonEmpty(AdsOnPlatform(db, f));
  }

  /** A count with every findAll filter: findAll's own count statement. This
      is the count a statistics total has to use to agree with the list's
      total for the same filters. */
  method CountMatching(db: Db, f: Filters) returns (r: Result<nat, StoreError>)
    ensures r == if StatusFilterValid(f) then Success(|MatchingAds(db, f)|) else Failure(InvalidEnumValue)
  {
    var countQ, adsQ, limitPh, offsetPh := FindAllQueries(f, 0, 0);
    CountStatementRuns(db, f, countQ);
    var counted := CountQuery(db, countQ);
    if counted.Failure? {
      return Failure(counted.error);
    }
    r := Success(if counted.value.Some? then counted.value.value else 0);
  }
}

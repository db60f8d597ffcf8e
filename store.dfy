/**
 * The relational store as the backend sees it: the `ads`, `ad_versions` and
 * `ad_platforms` tables held in memory, the query forms the repository
 * issues (a FROM/JOIN/WHERE core with `$n` placeholders and a positional
 * parameter list), and what each form returns.
 *
 * Dates are day numbers, timestamps are instants (integers). `ads.id` is
 * the primary key, so COUNT(DISTINCT a.id) and COUNT(*) agree and a JOIN
 * followed by DISTINCT keeps each qualifying ad once: the platform join is
 * therefore evaluated as "some platform row of this ad has that platform".
 */
module Store {
  import opened Wrappers
  import opened Text
  import opened Like

  /** A row of `ads`. */
  datatype AdRow = AdRow(
    id: string,
    adId: string,
    status: string,
    startDate: int,
    endDate: Option<int>,
    pageName: string,
    pageProfileUri: Option<string>,
    createdAt: int,
    updatedAt: int)

  /** A row of `ad_versions`; `adRef` is the foreign key to `ads.id`. */
  datatype VersionRow = VersionRow(
    id: string,
    adRef: string,
    versionNumber: int,
    adCopy: Option<string>,
    title: Option<string>,
    imageUrl: Option<string>,
    videoUrl: Option<string>,
    assetType: Option<string>,
    linkUrl: Option<string>,
    linkDescription: Option<string>,
    ctaText: Option<string>,
    ctaType: Option<string>,
    caption: Option<string>,
    createdAt: int)

  /** A row of `ad_platforms`; `adRef` is the foreign key to `ads.id`. */
  datatype PlatformRow = PlatformRow(id: string, adRef: string, platform: string, createdAt: int)

  datatype Db = Db(ads: seq<AdRow>, versions: seq<VersionRow>, platforms: seq<PlatformRow>)

  /** `ads.id` is a primary key. */
  ghost predicate UniqueIds(ads: seq<AdRow>)
  {
    forall i, j :: 0 <= i < j < |ads| ==> ads[i].id != ads[j].id
  }

  /** The status literals written into the by-date query text. */
  const ACTIVE: string := "ACTIVE"
  const INACTIVE: string := "INACTIVE"

  // ---------------------------------------------------------------------
  // Query forms

  /** A positional parameter value. */
  datatype Param = Text(s: string) | Day(d: int) | Int(n: int)

  /** One WHERE condition over `ads a`; `ph` is the number n of its `$n`. */
  datatype Predicate =
    | StatusEquals(ph: nat)      // a.status = $n
    | StartsOnOrAfter(ph: nat)   // a.start_date >= $n
    | EndsOnOrBefore(ph: nat)    // a.end_date <= $n
    | PageNameILike(ph: nat)     // a.page_name ILIKE $n
    | OnPlatform(ph: nat)        // a.id IN (SELECT ad_id FROM ad_platforms WHERE platform = $n)

  /** The optional `INNER JOIN ad_platforms ap ON a.id = ap.ad_id AND ap.platform = $n`. */
  datatype Join = NoJoin | PlatformJoin(ph: nat)

  /** `FROM ads a <join> WHERE <where joined by AND>` with its parameter list. */
  datatype Select = Select(join: Join, where: seq<Predicate>, params: seq<Param>)

  datatype StoreError =
    | BindError              // placeholders and parameters do not match
    | NegativeLimitOrOffset  // LIMIT or OFFSET bound to a negative number
    | OutOfBigintRange       // LIMIT or OFFSET bound to a number bigint cannot hold
    | InvalidEnumValue       // a.status compared with text outside the adstatus enum

  /** PostgreSQL's bigint, the type LIMIT and OFFSET parameters are read as. */
  predicate InBigint(n: int)
  {
    -0x8000_0000_0000_0000 <= n <= 0x7FFF_FFFF_FFFF_FFFF
  }

  /** How the engine receives a LIMIT and OFFSET pair: a value outside bigint
      fails when the parameters are read, a negative one when the statement
      runs, and anything else is accepted. */
  function LimitOffsetError(limit: int, offset: int): (r: Option<StoreError>)
    ensures r.None? <==> 0 <= limit <= 0x7FFF_FFFF_FFFF_FFFF && 0 <= offset <= 0x7FFF_FFFF_FFFF_FFFF
  {
    if !InBigint(limit) || !InBigint(offset) then Some(OutOfBigintRange)
    else if limit < 0 || offset < 0 then Some(NegativeLimitOrOffset)
    else None
  }

  /** A value of the `adstatus` enum that types the `ads.status` column. */
  predicate IsAdStatus(s: string)
  {
    s == ACTIVE || s == INACTIVE
  }

  /** Every text bound to an `a.status = $n` condition is a value of the enum;
      the engine rejects any other text when it reads the parameter as
      `adstatus`. */
  predicate StatusParamsValid(s: Select)
  {
    forall i :: 0 <= i < |s.where| && s.where[i].StatusEquals? && 1 <= s.where[i].ph <= |s.params| ==>
      (s.params[s.where[i].ph - 1].Text? ==> IsAdStatus(s.params[s.where[i].ph - 1].s))
  }

  /** The parameter kind a condition compares against. */
  predicate KindFits(p: Predicate, v: Param)
  {
    match p
    case StartsOnOrAfter(_) => v.Day?
    case EndsOnOrBefore(_) => v.Day?
    case _ => v.Text?
  }

  function WherePlaceholders(where: seq<Predicate>): (r: seq<nat>)
    ensures |r| == |where|
    ensures forall i :: 0 <= i < |where| ==> r[i] == where[i].ph
  {
    if where == [] then [] else [where[0].ph] + WherePlaceholders(where[1..])
  }

  /** Every placeholder a statement uses: WHERE, JOIN, then `extra` (LIMIT/OFFSET). */
  function Placeholders(s: Select, extra: seq<nat>): seq<nat>
  {
    WherePlaceholders(s.where) + (if s.join.PlatformJoin? then [s.join.ph] else []) + extra
  }

  /** The statement can be executed with its parameter list: each placeholder
      names a parameter of the right kind (`extra` ones integers) and each
      parameter is used, so the list is exactly as long as the highest
      placeholder. */
  predicate WellBound(s: Select, extra: seq<nat>)
  {
    && (forall i :: 0 <= i < |s.where| ==>
          1 <= s.where[i].ph <= |s.params| && KindFits(s.where[i], s.params[s.where[i].ph - 1]))
    && (s.join.PlatformJoin? ==> 1 <= s.join.ph <= |s.params| && s.params[s.join.ph - 1].Text?)
    && (forall i :: 0 <= i < |extra| ==> 1 <= extra[i] <= |s.params| && s.params[extra[i] - 1].Int?)
    && (forall k :: 1 <= k <= |s.params| ==> k in Placeholders(s, extra))
  }

  // ---------------------------------------------------------------------
  // Meaning of a WHERE/JOIN core

  /** Some `ad_platforms` row links the ad to the platform. */
  predicate HasPlatformRow(rows: seq<PlatformRow>, adRef: string, platform: string)
  {
    exists r :: r in rows && r.adRef == adRef && r.platform == platform
  }

  /** One condition on one ad; a NULL end date satisfies no comparison. */
  predicate Holds(db: Db, p: Predicate, params: seq<Param>, a: AdRow)
  {
    1 <= p.ph <= |params| &&
    var v := params[p.ph - 1];
    match p
    case StatusEquals(_) => v.Text? && a.status == v.s
    case StartsOnOrAfter(_) => v.Day? && a.startDate >= v.d
    case EndsOnOrBefore(_) => v.Day? && a.endDate.Some? && a.endDate.value <= v.d
    case PageNameILike(_) => v.Text? && ILike(a.pageName, v.s)
    case OnPlatform(_) => v.Text? && HasPlatformRow(db.platforms, a.id, v.s)
  }

  predicate JoinHolds(db: Db, j: Join, params: seq<Param>, a: AdRow)
  {
    match j
    case NoJoin => true
    case PlatformJoin(ph) =>
      1 <= ph <= |params| && params[ph - 1].Text? && HasPlatformRow(db.platforms, a.id, params[ph - 1].s)
  }

  predicate AllHold(db: Db, where: seq<Predicate>, params: seq<Param>, a: AdRow)
  {
    forall i :: 0 <= i < |where| ==> Holds(db, where[i], params, a)
  }

  /** The ad survives the JOIN and every WHERE condition. */
  predicate RowSelected(db: Db, s: Select, a: AdRow)
  {
    JoinHolds(db, s.join, s.params, a) && AllHold(db, s.where, s.params, a)
  }

  /** The selected ads, in storage order. */
  function Selected(db: Db, s: Select, ads: seq<AdRow>): seq<AdRow>
  {
    Filter(ads, (a: AdRow) => RowSelected(db, s, a))
  }

  /** Parameters appended after every WHERE and JOIN placeholder (LIMIT and
      OFFSET) do not change which ads are selected. */
  lemma AppendedParamsKeepSelection(db: Db, s: Select, more: seq<Param>, ads: seq<AdRow>)
    requires forall i :: 0 <= i < |s.where| ==> 1 <= s.where[i].ph <= |s.params|
    requires s.join.PlatformJoin? ==> 1 <= s.join.ph <= |s.params|
    ensures Selected(db, s.(params := s.params + more), ads) == Selected(db, s, ads)
  {
    var t := s.(params := s.params + more);
    forall a | a in ads ensures RowSelected(db, t, a) == RowSelected(db, s, a) {
      forall i | 0 <= i < |s.where| ensures Holds(db, s.where[i], t.params, a) == Holds(db, s.where[i], s.params, a) {
        assert t.params[s.where[i].ph - 1] == s.params[s.where[i].ph - 1];
      }
    }
    FilterSame(ads, (a: AdRow) => RowSelected(db, t, a), (a: AdRow) => RowSelected(db, s, a));
  }

  // ---------------------------------------------------------------------
  // Statement results

  /** `SELECT COUNT(DISTINCT a.id)` / `SELECT COUNT(*)`: one row holding the count. */
  function CountQuery(db: Db, s: Select): Result<Option<nat>, StoreError>
  {
    if !WellBound(s, []) then Failure(BindError)
    else if !StatusParamsValid(s) then Failure(InvalidEnumValue)
    else Success(Some(|Selected(db, s, db.ads)|))
  }

  /** `a` was created no earlier than `b`: the ORDER BY created_at DESC order. */
  predicate CreatedNoEarlier(a: AdRow, b: AdRow)
  {
    a.createdAt >= b.createdAt
  }

  function NewestFirst(ads: seq<AdRow>): seq<AdRow>
  {
    SortBy(ads, CreatedNoEarlier)
  }

  /** `OFFSET offset LIMIT limit` on an ordered result. */
  function Window<T>(s: seq<T>, offset: nat, limit: nat): (r: seq<T>)
    ensures |r| <= limit
    ensures offset + limit <= |s| ==> r == s[offset..offset + limit]
    ensures offset >= |s| ==> r == []
    ensures forall i :: 0 <= i < |r| ==> offset + i < |s| && r[i] == s[offset + i]
  {
    var lo := if offset <= |s| then offset else |s|;
    var hi := if offset + limit <= |s| then offset + limit else |s|;
    s[lo..hi]
  }

  /** `SELECT DISTINCT a.* ... ORDER BY a.created_at DESC LIMIT $l OFFSET $o`. */
  function PageQuery(db: Db, s: Select, limitPh: nat, offsetPh: nat): Result<seq<AdRow>, StoreError>
  {
    if !WellBound(s, [limitPh, offsetPh]) then Failure(BindError)
    else
      assert [limitPh, offsetPh][0] == limitPh && [limitPh, offsetPh][1] == offsetPh;
      var limit := s.params[limitPh - 1].n;
      var offset := s.params[offsetPh - 1].n;
      if !StatusParamsValid(s) then Failure(InvalidEnumValue)
      else if LimitOffsetError(limit, offset).Some? then Failure(LimitOffsetError(limit, offset).value)
      else Success(Window(NewestFirst(Selected(db, s, db.ads)), offset, limit))
  }

  /** `SELECT ... FROM ads WHERE id = $1` / `WHERE ad_id = $1` through queryOne: the first row. */
  function AdWithId(ads: seq<AdRow>, id: string): (r: Option<AdRow>)
    ensures r.None? <==> forall a :: a in ads ==> a.id != id
    ensures r.Some? ==> r.value in ads && r.value.id == id
  {
    if ads == [] then None else if ads[0].id == id then Some(ads[0]) else AdWithId(ads[1..], id)
  }

  function AdWithAdId(ads: seq<AdRow>, adId: string): (r: Option<AdRow>)
    ensures r.None? <==> forall a :: a in ads ==> a.adId != adId
    ensures r.Some? ==> r.value in ads && r.value.adId == adId
  {
    if ads == [] then None else if ads[0].adId == adId then Some(ads[0]) else AdWithAdId(ads[1..], adId)
  }

  function VersionRowsOf(rows: seq<VersionRow>, adRef: string): (r: seq<VersionRow>)
    ensures forall v :: v in r <==> v in rows && v.adRef == adRef
  {
    if rows == [] then []
    else (if rows[0].adRef == adRef then [rows[0]] else []) + VersionRowsOf(rows[1..], adRef)
  }

  function PlatformRowsOf(rows: seq<PlatformRow>, adRef: string): (r: seq<PlatformRow>)
    ensures forall p :: p in r <==> p in rows && p.adRef == adRef
  {
    if rows == [] then []
    else (if rows[0].adRef == adRef then [rows[0]] else []) + PlatformRowsOf(rows[1..], adRef)
  }

  predicate VersionNumberLe(a: VersionRow, b: VersionRow)
  {
    a.versionNumber <= b.versionNumber
  }

  predicate PlatformNameLe(a: PlatformRow, b: PlatformRow)
  {
    StrLe(a.platform, b.platform)
  }

  /** `SELECT ... FROM ad_versions WHERE ad_id = $1 ORDER BY version_number ASC`. */
  function VersionsQuery(db: Db, adRef: string): seq<VersionRow>
  {
    SortBy(VersionRowsOf(db.versions, adRef), VersionNumberLe)
  }

  /** `SELECT ... FROM ad_platforms WHERE ad_id = $1 ORDER BY platform ASC`. */
  function PlatformsQuery(db: Db, adRef: string): seq<PlatformRow>
  {
    SortBy(PlatformRowsOf(db.platforms, adRef), PlatformNameLe)
  }

  lemma VersionsQueryOrdered(db: Db, adRef: string)
    ensures multiset(VersionsQuery(db, adRef)) == multiset(VersionRowsOf(db.versions, adRef))
    ensures forall i, j :: 0 <= i < j < |VersionsQuery(db, adRef)| ==>
      VersionsQuery(db, adRef)[i].versionNumber <= VersionsQuery(db, adRef)[j].versionNumber
  {
    var r := VersionsQuery(db, adRef);
    SortBySorted(VersionRowsOf(db.versions, adRef), VersionNumberLe);
    forall i, j | 0 <= i < j < |r| ensures r[i].versionNumber <= r[j].versionNumber {
      SortedByIntKey(r, i, j);
    }
  }

  lemma {:induction false} SortedByIntKey(r: seq<VersionRow>, i: int, j: int)
    requires SortedBy(r, VersionNumberLe)
    requires 0 <= i <= j < |r|
    ensures r[i].versionNumber <= r[j].versionNumber
    decreases j - i
  {
    if i < j {
      SortedByIntKey(r, i, j - 1);
      assert VersionNumberLe(r[j - 1], r[j]);
    }
  }

  lemma PlatformsQueryOrdered(db: Db, adRef: string)
    ensures multiset(PlatformsQuery(db, adRef)) == multiset(PlatformRowsOf(db.platforms, adRef))
    ensures forall i, j :: 0 <= i < j < |PlatformsQuery(db, adRef)| ==>
      StrLe(PlatformsQuery(db, adRef)[i].platform, PlatformsQuery(db, adRef)[j].platform)
  {
    var r := PlatformsQuery(db, adRef);
    forall a: PlatformRow, b: PlatformRow ensures PlatformNameLe(a, b) || PlatformNameLe(b, a) {
      StrLeTotal(a.platform, b.platform);
    }
    SortBySorted(PlatformRowsOf(db.platforms, adRef), PlatformNameLe);
    forall i, j | 0 <= i < j < |r| ensures StrLe(r[i].platform, r[j].platform) {
      SortedByName(r, i, j);
    }
  }

  lemma {:induction false} SortedByName(r: seq<PlatformRow>, i: int, j: int)
    requires SortedBy(r, PlatformNameLe)
    requires 0 <= i < j < |r|
    ensures StrLe(r[i].platform, r[j].platform)
    decreases j - i
  {
    assert PlatformNameLe(r[j - 1], r[j]);
    if i < j - 1 {
      SortedByName(r, i, j - 1);
      StrLeTransitive(r[i].platform, r[j - 1].platform, r[j].platform);
    }
  }

  lemma NewestFirstOrdered(ads: seq<AdRow>)
    ensures multiset(NewestFirst(ads)) == multiset(ads)
    ensures forall i, j :: 0 <= i < j < |NewestFirst(ads)| ==>
      NewestFirst(ads)[i].createdAt >= NewestFirst(ads)[j].createdAt
  {
    var r := NewestFirst(ads);
    SortBySorted(ads, CreatedNoEarlier);
    forall i, j | 0 <= i < j < |r| ensures r[i].createdAt >= r[j].createdAt {
      SortedByCreated(r, i, j);
    }
  }

  /** Every ad in a window of the newest-first order is one of the ads. */
  lemma WindowNewestFirstIn(ads: seq<AdRow>, offset: nat, limit: nat, i: nat)
    requires i < |Window(NewestFirst(ads), offset, limit)|
    ensures Window(NewestFirst(ads), offset, limit)[i] in ads
  {
    var sorted := NewestFirst(ads);
    NewestFirstOrdered(ads);
    assert Window(sorted, offset, limit)[i] == sorted[offset + i];
    assert sorted[offset + i] in multiset(sorted);
  }

  /** Any window of the newest-first order is itself newest first. */
  lemma WindowNewestFirst(ads: seq<AdRow>, offset: nat, limit: nat)
    ensures forall i, j :: 0 <= i < j < |Window(NewestFirst(ads), offset, limit)| ==>
              Window(NewestFirst(ads), offset, limit)[i].createdAt >= Window(NewestFirst(ads), offset, limit)[j].createdAt
  {
    var sorted := NewestFirst(ads);
    var w := Window(sorted, offset, limit);
    NewestFirstOrdered(ads);
    forall i, j | 0 <= i < j < |w| ensures w[i].createdAt >= w[j].createdAt {
      assert w[i] == sorted[offset + i] && w[j] == sorted[offset + j];
    }
  }

  lemma {:induction false} SortedByCreated(r: seq<AdRow>, i: int, j: int)
    requires SortedBy(r, CreatedNoEarlier)
    requires 0 <= i <= j < |r|
    ensures r[i].createdAt >= r[j].createdAt
    decreases j - i
  {
    if i < j {
      SortedByCreated(r, i, j - 1);
      assert CreatedNoEarlier(r[j - 1], r[j]);
    }
  }

  // ---------------------------------------------------------------------
  // What the engine may return for an ORDER BY. `NewestFirst` is one of the
  // orders ORDER BY created_at DESC allows; ads that share a created_at may
  // come back in any order, and each statement may pick a different one.

  /** `o` is an order the engine may return for `ads` under ORDER BY
      created_at DESC. */
  ghost predicate MayReturnNewestFirst(ads: seq<AdRow>, o: seq<AdRow>)
  {
    multiset(o) == multiset(ads) && OrderedBy(o, CreatedNoEarlier)
  }

  /** No two different ads were created at the same instant. */
  ghost predicate DistinctCreated(ads: seq<AdRow>)
  {
    forall a, b :: a in ads && b in ads && a.createdAt == b.createdAt ==> a == b
  }

  /** Without ties on created_at, the engine has no choice: every order it may
      return is `NewestFirst`. */
  lemma NewestFirstDetermined(ads: seq<AdRow>, o: seq<AdRow>)
    requires MayReturnNewestFirst(ads, o) && DistinctCreated(ads)
    ensures o == NewestFirst(ads)
  {
    NewestFirstOrdered(ads);
    forall a | a in o ensures a in ads {
      assert a in multiset(o);
    }
    OrderedPermutationUnique(o, NewestFirst(ads), CreatedNoEarlier);
  }

  /** ORDER BY a.created_at DESC, a.id: newest first, ties broken by id. */
  predicate NewestThenId(a: AdRow, b: AdRow)
  {
    a.createdAt > b.createdAt || (a.createdAt == b.createdAt && StrLe(a.id, b.id))
  }

  /** `o` is an order the engine may return for `ads` under ORDER BY
      created_at DESC, id. */
  ghost predicate MayReturnNewestThenId(ads: seq<AdRow>, o: seq<AdRow>)
  {
    multiset(o) == multiset(ads) && OrderedBy(o, NewestThenId)
  }

  /** With ids a key, the tie-broken order leaves the engine no choice: any
      two orders it may return are the same. */
  lemma NewestThenIdDetermined(ads: seq<AdRow>, o: seq<AdRow>, o': seq<AdRow>)
    requires UniqueIds(ads)
    requires MayReturnNewestThenId(ads, o) && MayReturnNewestThenId(ads, o')
    ensures o == o'
  {
    forall a, b | a in o && b in o && NewestThenId(a, b) && NewestThenId(b, a) ensures a == b {
      assert a in multiset(ads) && b in multiset(ads);
      StrLeAntisymmetric(a.id, b.id);
      var i :| 0 <= i < |ads| && ads[i] == a;
      var j :| 0 <= j < |ads| && ads[j] == b;
      assert i == j;
    }
    OrderedPermutationUnique(o, o', NewestThenId);
  }

  /** The engine can always honour the tie-broken order. */
  lemma NewestThenIdExists(ads: seq<AdRow>) returns (o: seq<AdRow>)
    ensures MayReturnNewestThenId(ads, o)
  {
    assert Total(NewestThenId) by {
      forall a, b ensures NewestThenId(a, b) || NewestThenId(b, a) {
        StrLeTotal(a.id, b.id);
      }
    }
    o := SortBy(ads, NewestThenId);
    SortBySorted(ads, NewestThenId);
    forall i, j | 0 <= i < j < |o| ensures NewestThenId(o[i], o[j]) {
      SortedByNewestThenId(o, i, j);
    }
  }

  lemma {:induction false} SortedByNewestThenId(r: seq<AdRow>, i: int, j: int)
    requires SortedBy(r, NewestThenId)
    requires 0 <= i < j < |r|
    ensures NewestThenId(r[i], r[j])
    decreases j - i
  {
    if i < j - 1 {
      SortedByNewestThenId(r, i, j - 1);
      assert NewestThenId(r[j - 1], r[j]);
      if r[i].createdAt == r[j - 1].createdAt == r[j].createdAt {
        StrLeTransitive(r[i].id, r[j - 1].id, r[j].id);
      }
    }
  }

  // ---------------------------------------------------------------------
  // GROUP BY a.start_date ORDER BY a.start_date ASC, with
  // COUNT(*), COUNT(*) FILTER (status = 'ACTIVE'), COUNT(*) FILTER (status = 'INACTIVE')

  /** One result row of the by-date query. */
  datatype DateBucket = DateBucket(date: int, count: nat, active: nat, inactive: nat)

  /** The bucket of a single ad. */
  function Tally(a: AdRow): DateBucket
  {
    DateBucket(a.startDate, 1, if a.status == ACTIVE then 1 else 0, if a.status == INACTIVE then 1 else 0)
  }

  /** Counts one more ad into the bucket of its date, starting one if there is none. */
  function CountIn(b: Option<DateBucket>, a: AdRow): DateBucket
  {
    match b
    case None => Tally(a)
    case Some(b) => DateBucket(b.date, b.count + 1, b.active + Tally(a).active, b.inactive + Tally(a).inactive)
  }

  function AddToBuckets(bs: seq<DateBucket>, a: AdRow): seq<DateBucket>
  {
    if bs == [] || a.startDate < bs[0].date then [Tally(a)] + bs
    else if a.startDate == bs[0].date then [CountIn(Some(bs[0]), a)] + bs[1..]
    else [bs[0]] + AddToBuckets(bs[1..], a)
  }

  function BucketsOf(ads: seq<AdRow>): seq<DateBucket>
  {
    if ads == [] then [] else AddToBuckets(BucketsOf(ads[1..]), ads[0])
  }

  /** The by-date statement's rows. */
  function ByDateQuery(db: Db, s: Select): Result<seq<DateBucket>, StoreError>
  {
    if !WellBound(s, []) then Failure(BindError)
    else Success(BucketsOf(Selected(db, s, db.ads)))
  }

  /** Reference counts: ads starting on `d`, and those among them with a status. */
  function StartingOn(ads: seq<AdRow>, d: int): nat
  {
    if ads == [] then 0 else (if ads[0].startDate == d then 1 else 0) + StartingOn(ads[1..], d)
  }

  function StartingOnWith(ads: seq<AdRow>, d: int, status: string): (r: nat)
    ensures r <= StartingOn(ads, d)
  {
    if ads == [] then 0
    else (if ads[0].startDate == d && ads[0].status == status then 1 else 0) + StartingOnWith(ads[1..], d, status)
  }

  /** The bucket the query reports for `d`, if any. */
  function BucketAt(bs: seq<DateBucket>, d: int): Option<DateBucket>
  {
    if bs == [] then None else if bs[0].date == d then Some(bs[0]) else BucketAt(bs[1..], d)
  }

  /** What the by-date query must report for `d`: nothing for a day without
      ads, otherwise the day's total and its ACTIVE and INACTIVE counts. */
  function ExpectedBucket(ads: seq<AdRow>, d: int): Option<DateBucket>
  {
    if StartingOn(ads, d) == 0 then None
    else Some(DateBucket(d, StartingOn(ads, d), StartingOnWith(ads, d, ACTIVE), StartingOnWith(ads, d, INACTIVE)))
  }

  predicate StrictlyAscending(bs: seq<DateBucket>)
  {
    forall i, j :: 0 <= i < j < |bs| ==> bs[i].date < bs[j].date
  }

  function SumCounts(bs: seq<DateBucket>): nat
  {
    if bs == [] then 0 else bs[0].count + SumCounts(bs[1..])
  }

  lemma {:induction false} BucketAtBeforeFirst(bs: seq<DateBucket>, d: int)
    requires StrictlyAscending(bs)
    requires bs == [] || d < bs[0].date
    ensures BucketAt(bs, d) == None
  {
    if bs != [] {
      BucketAtBeforeFirst(bs[1..], d);
    }
  }

  lemma AddToBucketsSpec(bs: seq<DateBucket>, a: AdRow)
    requires StrictlyAscending(bs)
    ensures StrictlyAscending(AddToBuckets(bs, a))
    ensures |AddToBuckets(bs, a)| > 0 && (AddToBuckets(bs, a)[0].date == a.startDate || AddToBuckets(bs, a)[0] == bs[0])
    ensures forall d ::
              BucketAt(AddToBuckets(bs, a), d) == (if d == a.startDate then Some(CountIn(BucketAt(bs, d), a)) else BucketAt(bs, d))
    ensures SumCounts(AddToBuckets(bs, a)) == SumCounts(bs) + 1
  {
    AddToBucketsOrder(bs, a);
    AddToBucketsAt(bs, a);
    AddToBucketsSum(bs, a);
  }

  lemma {:induction false} AddToBucketsOrder(bs: seq<DateBucket>, a: AdRow)
    requires StrictlyAscending(bs)
    ensures StrictlyAscending(AddToBuckets(bs, a))
    ensures |AddToBuckets(bs, a)| > 0 && (AddToBuckets(bs, a)[0].date == a.startDate || AddToBuckets(bs, a)[0] == bs[0])
  {
    if bs == [] || a.startDate <= bs[0].date {
    } else {
      AddToBucketsOrder(bs[1..], a);
      var r := AddToBuckets(bs, a);
      assert r == [bs[0]] + AddToBuckets(bs[1..], a);
      forall i, j | 0 <= i < j < |r| ensures r[i].date < r[j].date {
        if i == 0 && j > 1 {
          assert r[1].date == a.startDate || r[1] == bs[1];
        }
      }
    }
  }

  lemma {:induction false} AddToBucketsAt(bs: seq<DateBucket>, a: AdRow)
    requires StrictlyAscending(bs)
    ensures forall d ::
              BucketAt(AddToBuckets(bs, a), d) == (if d == a.startDate then Some(CountIn(BucketAt(bs, d), a)) else BucketAt(bs, d))
  {
    if bs == [] || a.startDate < bs[0].date {
      BucketAtBeforeFirst(bs, a.startDate);
    } else if a.startDate == bs[0].date {
    } else {
      AddToBucketsAt(bs[1..], a);
    }
  }

  lemma {:induction false} AddToBucketsSum(bs: seq<DateBucket>, a: AdRow)
    ensures SumCounts(AddToBuckets(bs, a)) == SumCounts(bs) + 1
  {
    if bs == [] || a.startDate <= bs[0].date {
    } else {
      AddToBucketsSum(bs[1..], a);
    }
  }

  /** The by-date rows are in strictly ascending date order, one per day that
      has ads, each holding that day's total, ACTIVE and INACTIVE counts; the
      totals add up to the number of ads counted. */
  lemma {:induction false} BucketsOfSpec(ads: seq<AdRow>)
    ensures StrictlyAscending(BucketsOf(ads))
    ensures forall d :: BucketAt(BucketsOf(ads), d) == ExpectedBucket(ads, d)
    ensures SumCounts(BucketsOf(ads)) == |ads|
  {
    if ads != [] {
      var a, rest := ads[0], ads[1..];
      BucketsOfSpec(rest);
      AddToBucketsSpec(BucketsOf(rest), a);
      forall d ensures BucketAt(BucketsOf(ads), d) == ExpectedBucket(ads, d) {
        ExpectedBucketStep(ads, d);
      }
    }
  }

  /** Counting one more ad in front adds it to its own day only. */
  lemma ExpectedBucketStep(ads: seq<AdRow>, d: int)
    requires ads != []
    ensures ExpectedBucket(ads, d) ==
              if d == ads[0].startDate then Some(CountIn(ExpectedBucket(ads[1..], d), ads[0]))
              else ExpectedBucket(ads[1..], d)
  {
    if d == ads[0].startDate && StartingOn(ads[1..], d) == 0 {
      assert StartingOnWith(ads[1..], d, ACTIVE) == 0 && StartingOnWith(ads[1..], d, INACTIVE) == 0;
    }
  }

  /** Every reported bucket counts at least one ad, and ACTIVE and INACTIVE
      ads are disjoint parts of its total. */
  lemma BucketsAreNonEmpty(ads: seq<AdRow>)
    ensures forall b :: b in BucketsOf(ads) ==> b.count >= 1 && b.active + b.inactive <= b.count
  {
    var bs := BucketsOf(ads);
    BucketsOfSpec(ads);
    forall b | b in bs ensures b.count >= 1 && b.active + b.inactive <= b.count {
      var e := BucketAt(bs, b.date);
      BucketAtFindsMember(bs, b);
      StatusesSplit(ads, b.date);
    }
  }

  lemma {:induction false} BucketAtFindsMember(bs: seq<DateBucket>, b: DateBucket)
    requires StrictlyAscending(bs)
    requires b in bs
    ensures BucketAt(bs, b.date) == Some(b)
  {
    if bs[0] != b {
      BucketAtFindsMember(bs[1..], b);
    }
  }

  /** The ACTIVE and INACTIVE ads of a day are disjoint; when no other status
      occurs they make up the whole day. */
  lemma {:induction false} StatusesSplit(ads: seq<AdRow>, d: int)
    ensures StartingOnWith(ads, d, ACTIVE) + StartingOnWith(ads, d, INACTIVE) <= StartingOn(ads, d)
    ensures (forall a :: a in ads ==> a.status == ACTIVE || a.status == INACTIVE) ==>
      StartingOnWith(ads, d, ACTIVE) + StartingOnWith(ads, d, INACTIVE) == StartingOn(ads, d)
  {
    if ads != [] {
      StatusesSplit(ads[1..], d);
      assert ACTIVE != INACTIVE;
      assert forall a :: a in ads[1..] ==> a in ads;
    }
  }

  // ---------------------------------------------------------------------
  // FROM ad_platforms ap INNER JOIN ads a ON ap.ad_id = a.id
  // GROUP BY ap.platform ORDER BY COUNT(DISTINCT a.id) DESC

  datatype PlatformCount = PlatformCount(platform: string, count: nat)

  /** One group under construction: a platform and the ads seen on it. */
  datatype PlatformGroup = PlatformGroup(platform: string, ads: set<string>)

  function IdsOf(ads: seq<AdRow>): (r: set<string>)
    ensures forall id :: id in r <==> exists a :: a in ads && a.id == id
  {
    if ads == [] then {} else {ads[0].id} + IdsOf(ads[1..])
  }

  /** The platform rows that join with one of the selected ads. */
  function RowsOfAds(rows: seq<PlatformRow>, ids: set<string>): (r: seq<PlatformRow>)
    ensures forall p :: p in r <==> p in rows && p.adRef in ids
  {
    if rows == [] then []
    else (if rows[0].adRef in ids then [rows[0]] else []) + RowsOfAds(rows[1..], ids)
  }

  function AddToGroups(gs: seq<PlatformGroup>, r: PlatformRow): seq<PlatformGroup>
  {
    if gs == [] then [PlatformGroup(r.platform, {r.adRef})]
    else if gs[0].platform == r.platform then [gs[0].(ads := gs[0].ads + {r.adRef})] + gs[1..]
    else [gs[0]] + AddToGroups(gs[1..], r)
  }

  function GroupsOf(rows: seq<PlatformRow>): seq<PlatformGroup>
  {
    if rows == [] then [] else AddToGroups(GroupsOf(rows[1..]), rows[0])
  }

  function CountsOf(gs: seq<PlatformGroup>): (r: seq<PlatformCount>)
    ensures |r| == |gs|
    ensures forall i :: 0 <= i < |gs| ==> r[i] == PlatformCount(gs[i].platform, |gs[i].ads|)
  {
    if gs == [] then [] else [PlatformCount(gs[0].platform, |gs[0].ads|)] + CountsOf(gs[1..])
  }

  predicate MoreOrSameAds(a: PlatformCount, b: PlatformCount)
  {
    a.count >= b.count
  }

  /** The platform-count statement's rows. */
  function PlatformCountQuery(db: Db, s: Select): Result<seq<PlatformCount>, StoreError>
  {
    if !WellBound(s, []) then Failure(BindError)
    else if !StatusParamsValid(s) then Failure(InvalidEnumValue)
    else Success(PlatformCounts(RowsOfAds(db.platforms, IdsOf(Selected(db, s, db.ads)))))
  }

  /** Groups joined platform rows by platform and orders the groups by size. */
  function PlatformCounts(rows: seq<PlatformRow>): seq<PlatformCount>
  {
    SortBy(CountsOf(GroupsOf(rows)), MoreOrSameAds)
  }

  /** Reference: the distinct ads that a list of platform rows puts on `platform`. */
  function AdsOn(rows: seq<PlatformRow>, platform: string): (r: set<string>)
    ensures forall id :: id in r <==> exists p :: p in rows && p.platform == platform && p.adRef == id
  {
    if rows == [] then {}
    else (if rows[0].platform == platform then {rows[0].adRef} else {}) + AdsOn(rows[1..], platform)
  }

  function GroupAt(gs: seq<PlatformGroup>, platform: string): set<string>
  {
    if gs == [] then {} else if gs[0].platform == platform then gs[0].ads else GroupAt(gs[1..], platform)
  }

  ghost predicate GroupsWellFormed(gs: seq<PlatformGroup>)
  {
    && DistinctBy(gs, (g: PlatformGroup) => g.platform)
    && forall g :: g in gs ==> g.ads != {}
  }

  lemma {:induction false} GroupAtMember(gs: seq<PlatformGroup>, g: PlatformGroup)
    requires DistinctBy(gs, (g: PlatformGroup) => g.platform)
    requires g in gs
    ensures GroupAt(gs, g.platform) == g.ads
  {
    if gs[0] != g {
      assert gs[0].platform != g.platform by {
        var k :| 0 <= k < |gs| && gs[k] == g;
        assert k != 0;
      }
      GroupAtMember(gs[1..], g);
    }
  }

  lemma {:induction false} GroupAtAbsent(gs: seq<PlatformGroup>, platform: string)
    requires forall g :: g in gs ==> g.platform != platform
    ensures GroupAt(gs, platform) == {}
  {
    if gs != [] {
      GroupAtAbsent(gs[1..], platform);
    }
  }

  lemma {:induction false} AddToGroupsSpec(gs: seq<PlatformGroup>, r: PlatformRow)
    requires GroupsWellFormed(gs)
    ensures GroupsWellFormed(AddToGroups(gs, r))
    ensures forall g :: g in AddToGroups(gs, r) ==> g.platform == r.platform || g in gs
    ensures forall p ::
              GroupAt(AddToGroups(gs, r), p) == (if p == r.platform then GroupAt(gs, p) + {r.adRef} else GroupAt(gs, p))
  {
    if gs == [] {
    } else if gs[0].platform == r.platform {
      var out := AddToGroups(gs, r);
      forall i, j | 0 <= i < j < |out| ensures out[i].platform != out[j].platform {
        assert out[i].platform == gs[i].platform && out[j].platform == gs[j].platform;
      }
    } else {
      AddToGroupsSpec(gs[1..], r);
      var out := AddToGroups(gs, r);
      assert out == [gs[0]] + AddToGroups(gs[1..], r);
      forall j | 0 < j < |out| ensures out[0].platform != out[j].platform {
        assert out[j] in AddToGroups(gs[1..], r);
        if out[j].platform != r.platform {
          var k :| 0 <= k < |gs[1..]| && gs[1..][k] == out[j];
          assert gs[0].platform != gs[k + 1].platform;
        }
      }
    }
  }

  lemma {:induction false} GroupsOfSpec(rows: seq<PlatformRow>)
    ensures GroupsWellFormed(GroupsOf(rows))
    ensures forall p :: GroupAt(GroupsOf(rows), p) == AdsOn(rows, p)
    ensures forall g :: g in GroupsOf(rows) ==> exists r :: r in rows && r.platform == g.platform
  {
    if rows != [] {
      GroupsOfSpec(rows[1..]);
      AddToGroupsSpec(GroupsOf(rows[1..]), rows[0]);
      forall g | g in GroupsOf(rows) ensures exists r :: r in rows && r.platform == g.platform {
        if g.platform != rows[0].platform {
          var r :| r in rows[1..] && r.platform == g.platform;
          assert r in rows;
        }
      }
    }
  }

  /** A platform's row reports the number of distinct ads on it, at least one. */
  lemma PlatformCountsExact(rows: seq<PlatformRow>)
    ensures forall c :: c in PlatformCounts(rows) ==> c.count == |AdsOn(rows, c.platform)| && c.count >= 1
  {
    var gs := GroupsOf(rows);
    var cs := CountsOf(gs);
    GroupsOfSpec(rows);
    forall c | c in PlatformCounts(rows) ensures c.count == |AdsOn(rows, c.platform)| && c.count >= 1 {
      assert multiset(PlatformCounts(rows))[c] > 0;
      var k :| 0 <= k < |cs| && cs[k] == c;
      GroupAtMember(gs, gs[k]);
    }
  }

  /** Exactly the platforms with a joined ad get a row. */
  lemma {:induction false} PlatformCountsComplete(rows: seq<PlatformRow>, p: string)
    ensures AdsOn(rows, p) != {} <==> exists c :: c in PlatformCounts(rows) && c.platform == p
  {
    if AdsOn(rows, p) != {} {
      UsedPlatformCounted(rows, p);
    }
    if c :| c in PlatformCounts(rows) && c.platform == p {
      CountedPlatformUsed(rows, c);
    }
  }

  lemma {:induction false} UsedPlatformCounted(rows: seq<PlatformRow>, p: string)
    requires AdsOn(rows, p) != {}
    ensures exists c :: c in PlatformCounts(rows) && c.platform == p
  {
    var gs := GroupsOf(rows);
    var cs := CountsOf(gs);
    GroupsOfSpec(rows);
    if forall g :: g in gs ==> g.platform != p {
      GroupAtAbsent(gs, p);
      assert false;
    }
    var g :| g in gs && g.platform == p;
    var k :| 0 <= k < |gs| && gs[k] == g;
    assert multiset(cs)[cs[k]] > 0;
    assert cs[k] in PlatformCounts(rows);
  }

  lemma {:induction false} CountedPlatformUsed(rows: seq<PlatformRow>, c: PlatformCount)
    requires c in PlatformCounts(rows)
    ensures AdsOn(rows, c.platform) != {}
  {
    var gs := GroupsOf(rows);
    var cs := CountsOf(gs);
    GroupsOfSpec(rows);
    assert multiset(PlatformCounts(rows))[c] > 0;
    var k :| 0 <= k < |cs| && cs[k] == c;
    GroupAtMember(gs, gs[k]);
  }

  /** No platform is reported twice, and rows come in non-increasing count order. */
  lemma PlatformCountsOrdered(rows: seq<PlatformRow>)
    ensures DistinctBy(PlatformCounts(rows), (c: PlatformCount) => c.platform)
    ensures forall i, j :: 0 <= i < j < |PlatformCounts(rows)| ==>
      PlatformCounts(rows)[i].count >= PlatformCounts(rows)[j].count
  {
    var gs := GroupsOf(rows);
    var cs := CountsOf(gs);
    var out := PlatformCounts(rows);
    GroupsOfSpec(rows);
    assert DistinctBy(cs, (c: PlatformCount) => c.platform) by {
      forall i, j | 0 <= i < j < |cs| ensures cs[i].platform != cs[j].platform {
        assert gs[i].platform != gs[j].platform;
      }
    }
    SortByKeepsDistinct(cs, MoreOrSameAds, (c: PlatformCount) => c.platform);
    SortBySorted(cs, MoreOrSameAds);
    forall i, j | 0 <= i < j < |out| ensures out[i].count >= out[j].count {
      SortedByCount(out, i, j);
    }
  }

  lemma {:induction false} SortedByCount(r: seq<PlatformCount>, i: int, j: int)
    requires SortedBy(r, MoreOrSameAds)
    requires 0 <= i <= j < |r|
    ensures r[i].count >= r[j].count
    decreases j - i
  {
    if i < j {
      SortedByCount(r, i, j - 1);
      assert MoreOrSameAds(r[j - 1], r[j]);
    }
  }
}

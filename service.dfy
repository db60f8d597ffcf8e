/**
 * The backend's ad service: every operation delegates to one repository read,
 * and the statistics operation bundles five reads into one payload, two of
 * them with the caller's status replaced by ACTIVE and INACTIVE.
 *
 * The repository reads are independent and side-effect free, so the
 * concurrent `Promise.all` of the statistics operation is modelled as the
 * five reads one after the other. An absent filters object is the value
 * `NoFilters`, whose every field is absent.
 */
module AdService {
  import opened Wrappers
  import opened Text
  import opened Store
  import opened AdRepository

  const NoFilters := Filters(None, None, None, None, None)

  /** The statistics payload. */
  datatype Stats = Stats(
    total: nat,
    active: nat,
    inactive: nat,
    byDate: seq<DateBucket>,
    byPlatform: seq<PlatformCount>)

  // ---------------------------------------------------------------------
  // Pass-through reads: the repository's answer, unchanged

  method GetAds(db: Db, f: Filters, pagination: Option<Pagination>) returns (r: Result<PaginatedAds, StoreError>)
    ensures r == FindAllSpec(db, f, pagination)
  {
    r := FindAll(db, f, pagination);
  }

  method GetAdById(db: Db, id: string) returns (r: Option<AdWithRelations>)
    ensures r == FindById(db, id)
    ensures r.None? <==> forall a :: a in db.ads ==> a.id != id
    ensures r.Some? ==> r.value.ad in db.ads && r.value.ad.id == id && r.value == WithRelations(db, r.value.ad)
  {
    r := FindById(db, id);
  }

  method GetAdByAdId(db: Db, adId: string) returns (r: Option<AdWithRelations>)
    ensures r == FindByAdId(db, adId)
    ensures r.None? <==> forall a :: a in db.ads ==> a.adId != adId
    ensures r.Some? ==> r.value.ad in db.ads && r.value.ad.adId == adId && r.value == WithRelations(db, r.value.ad)
  {
    r := FindByAdId(db, adId);
  }

  method GetAdsCount(db: Db, f: Filters) returns (r: Result<nat, StoreError>)
    ensures r == if StatusFilterValid(f) then Success(CountOf(db, f)) else Failure(InvalidEnumValue)
  {
    r := Count(db, f);
  }

  method GetAdsByDate(db: Db, f: Filters) returns (r: seq<DateBucket>)
    ensures r == AdsByDateOf(db, f)
  {
    r := AdRepository.GetAdsByDate(db, f);
  }

  method GetPlatformStats(db: Db, f: Filters) returns (r: Result<seq<PlatformCount>, StoreError>)
    ensures r == if StatusFilterValid(f) then Success(PlatformStatsOf(db, f)) else Failure(InvalidEnumValue)
  {
    r := AdRepository.GetPlatformStats(db, f);
  }

  // ---------------------------------------------------------------------
  // Statistics

  /** The five reads with the caller's filters, the two sub-counts with the
      status replaced and every other filter kept. */
  function StatsOf(db: Db, f: Filters): Stats
  {
    Stats(
      CountOf(db, f),
      CountOf(db, f.(status := Some(ACTIVE))),
      CountOf(db, f.(status := Some(INACTIVE))),
      AdsByDateOf(db, f),
      PlatformStatsOf(db, f))
  }

  /** getStats: the statistics, or the failure of the reads that take the
      caller's status when it is outside the enum; the two sub-counts
      replace it with a valid one and cannot fail. */
  method GetStats(db: Db, f: Filters) returns (r: Result<Stats, StoreError>)
    ensures r == if StatusFilterValid(f) then Success(StatsOf(db, f)) else Failure(InvalidEnumValue)
  {
    var total := Count(db, f);
    var activeCount := Count(db, f.(status := Some(ACTIVE)));
    var inactiveCount := Count(db, f.(status := Some(INACTIVE)));
    var byDate := AdRepository.GetAdsByDate(db, f);
    var byPlatform := AdRepository.GetPlatformStats(db, f);
    if total.Failure? {
      return Failure(total.error);
    }
    r := Success(Stats(total.value, activeCount.value, inactiveCount.value, byDate, byPlatform.value));
  }

  /** `a` has status `s` and lies in the caller's date range. */
  predicate InRangeWithStatus(f: Filters, s: string, a: AdRow)
  {
    a.status == s && CountMatch(f.(status := None), a)
  }

  /** The ads with status `s` in the caller's date range, whatever status the
      caller asked for. */
  function WithStatusInRange(db: Db, f: Filters, s: string): seq<AdRow>
  {
    Filter(db.ads, (a: AdRow) => InRangeWithStatus(f, s, a))
  }

  /** A sub-count ignores the caller's status: with the status replaced by a
      non-empty `s` (ACTIVE or INACTIVE in getStats), it is the number of ads
      with status `s` in the caller's date range. */
  lemma SubCountIgnoresCallerStatus(db: Db, f: Filters, s: string)
    requires s != ""
    ensures CountOf(db, f.(status := Some(s))) == |WithStatusInRange(db, f, s)|
  {
    var g := f.(status := Some(s));
    FilterSame(db.ads, (a: AdRow) => CountMatch(g, a), (a: AdRow) => InRangeWithStatus(f, s, a));
  }

  /** Without a caller status, the active and inactive sub-counts are disjoint
      parts of the total; they make up all of it when every ad is ACTIVE or
      INACTIVE. */
  lemma SubCountsSplitTotal(db: Db, f: Filters)
    requires !Given(f.status)
    ensures CountOf(db, f.(status := Some(ACTIVE))) + CountOf(db, f.(status := Some(INACTIVE))) <= CountOf(db, f)
    ensures (forall a :: a in db.ads ==> a.status == ACTIVE || a.status == INACTIVE) ==>
              CountOf(db, f.(status := Some(ACTIVE))) + CountOf(db, f.(status := Some(INACTIVE))) == CountOf(db, f)
  {
    var fa := f.(status := Some(ACTIVE));
    var fi := f.(status := Some(INACTIVE));
    assert ACTIVE != INACTIVE;
    FilterSplit(db.ads,
      (a: AdRow) => CountMatch(f, a),
      (a: AdRow) => CountMatch(fa, a),
      (a: AdRow) => CountMatch(fi, a));
  }

  // ---------------------------------------------------------------------
  // Agreement of the statistics total with the list total

  /** The statistics total leaves out the platform filter the list honours:
      with one ad and no platform rows, filtering by platform "facebook" lists
      no ads but the statistics total counts one. */
  lemma StatsTotalIgnoresPlatform()
    ensures var a := AdRow("1", "100", ACTIVE, 0, None, "Acme", None, 0, 0);
            var db := Db([a], [], []);
            var f := NoFilters.(platform := Some("facebook"));
            && CountOf(db, f) == 1
            && FindAllSpec(db, f, None).Success?
            && FindAllSpec(db, f, None).value.total == 0
  {
    var a := AdRow("1", "100", ACTIVE, 0, None, "Acme", None, 0, 0);
    var db := Db([a], [], []);
    var f := NoFilters.(platform := Some("facebook"));
    assert CountMatch(f, a);
    assert !FindAllMatch(db, f, a);
    assert Filter(db.ads, (a: AdRow) => CountMatch(f, a)) == [a];
    assert MatchingAds(db, f) == [];
  }

  /** The statistics as they should be: the three counts are findAll's own
      totals, so they honour the platform and page-name filters too. */
  function StatsConsistentOf(db: Db, f: Filters): Stats
  {
    Stats(
      |MatchingAds(db, f)|,
      |MatchingAds(db, f.(status := Some(ACTIVE)))|,
      |MatchingAds(db, f.(status := Some(INACTIVE)))|,
      AdsByDateOf(db, f),
      PlatformStatsOf(db, f))
  }

  /** Statistics whose three counts use findAll's own count statement. */
  method GetStatsConsistent(db: Db, f: Filters) returns (r: Result<Stats, StoreError>)
    ensures r == if StatusFilterValid(f) then Success(StatsConsistentOf(db, f)) else Failure(InvalidEnumValue)
  {
    var total := CountMatching(db, f);
    var activeCount := CountMatching(db, f.(status := Some(ACTIVE)));
    var inactiveCount := CountMatching(db, f.(status := Some(INACTIVE)));
    var byDate := AdRepository.GetAdsByDate(db, f);
    var byPlatform := AdRepository.GetPlatformStats(db, f);
    if total.Failure? {
      return Failure(total.error);
    }
    r := Success(Stats(total.value, activeCount.value, inactiveCount.value, byDate, byPlatform.value));
  }

  /** With the corrected counts, the statistics agree with the list for the
      same filters: the total is findAll's total, and each sub-count is
      findAll's total with that status. */
  lemma ConsistentTotalIsListTotal(db: Db, f: Filters, pagination: Option<Pagination>)
    requires FindAllSpec(db, f, pagination).Success?
    ensures StatsConsistentOf(db, f).total == FindAllSpec(db, f, pagination).value.total
    ensures FindAllSpec(db, f.(status := Some(ACTIVE)), pagination).Success?
    ensures StatsConsistentOf(db, f).active == FindAllSpec(db, f.(status := Some(ACTIVE)), pagination).value.total
    ensures FindAllSpec(db, f.(status := Some(INACTIVE)), pagination).Success?
    ensures StatsConsistentOf(db, f).inactive == FindAllSpec(db, f.(status := Some(INACTIVE)), pagination).value.total
  {
  }

  /** Without a caller status, the corrected sub-counts are disjoint parts of
      the corrected total, and make up all of it when every ad is ACTIVE or
      INACTIVE. */
  lemma ConsistentSubCountsSplitTotal(db: Db, f: Filters)
    requires !Given(f.status)
    ensures StatsConsistentOf(db, f).active + StatsConsistentOf(db, f).inactive <= StatsConsistentOf(db, f).total
    ensures (forall a :: a in db.ads ==> a.status == ACTIVE || a.status == INACTIVE) ==>
              StatsConsistentOf(db, f).active + StatsConsistentOf(db, f).inactive == StatsConsistentOf(db, f).total
  {
    var fa := f.(status := Some(ACTIVE));
    var fi := f.(status := Some(INACTIVE));
    assert ACTIVE != INACTIVE;
    FilterSplit(db.ads,
      (a: AdRow) => FindAllMatch(db, f, a),
      (a: AdRow) => FindAllMatch(db, fa, a),
      (a: AdRow) => FindAllMatch(db, fi, a));
  }
}

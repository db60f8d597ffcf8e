/**
 * The scraper's importer: each scraped entry is upserted into three tables
 * (ads, ad_versions, ad_platforms) in its own transaction. An existing ad
 * (same ad_id) is updated in place and loses its versions and platforms,
 * which are then recreated from the entry; a new ad is inserted and flushed.
 * Versions are numbered from 1 in input order, one platform row is added per
 * listed platform. A failing entry is rolled back and counted as an error.
 *
 * The database is a session over committed tables: `Current()` is what the
 * session sees (flushed and pending changes included), `committed` what the
 * last commit wrote. Constraints (NOT NULL, values the driver can bind) are
 * checked at flush and at commit. Row keys (uuid4 in the source) come from a
 * counter that a rollback does not reset.
 */
module ImportAds {
  import opened Wrappers
  import opened PyJson
  import opened Dates
  import Text

  // ---------------------------------------------------------------------
  // Rows and constraints

  /** The `AdStatus` members; the Enum column stores the member name. */
  datatype AdStatus = ACTIVE | INACTIVE

  /** The `AssetType` members. */
  datatype AssetType = IMAGE | VIDEO

  datatype AdRow = AdRow(
    id: nat,
    adId: Json,
    status: AdStatus,
    startDate: Option<Date>,
    endDate: Option<Date>,
    pageName: Json,
    pageProfileUri: Json)

  datatype VersionRow = VersionRow(
    adKey: nat,
    versionNumber: nat,
    adCopy: Json,
    title: Json,
    imageUrl: Json,
    videoUrl: Json,
    assetType: Option<AssetType>,
    linkUrl: Json,
    linkDescription: Json,
    ctaText: Json,
    ctaType: Json,
    caption: Json)

  datatype PlatformRow = PlatformRow(adKey: nat, platform: Json)

  datatype Tables = Tables(ads: seq<AdRow>, versions: seq<VersionRow>, platforms: seq<PlatformRow>)

  /** A value the driver can bind to a column: lists and dicts cannot be. */
  predicate Scalar(v: Json)
  {
    !v.Arr? && !v.Obj?
  }

  /** A value a NOT NULL column accepts. */
  predicate Required(v: Json)
  {
    Scalar(v) && !v.Null?
  }

  predicate AdRowOk(a: AdRow)
  {
    Required(a.adId) && a.startDate.Some? && Required(a.pageName) && Scalar(a.pageProfileUri)
  }

  predicate VersionRowOk(v: VersionRow)
  {
    && Scalar(v.adCopy) && Scalar(v.title) && Scalar(v.imageUrl) && Scalar(v.videoUrl)
    && Scalar(v.linkUrl) && Scalar(v.linkDescription) && Scalar(v.ctaText) && Scalar(v.ctaType)
    && Scalar(v.caption)
  }

  predicate PlatformRowOk(p: PlatformRow)
  {
    Required(p.platform)
  }

  /** Every row satisfies its table's column constraints. */
  predicate RowsOk(t: Tables)
  {
    && (forall i :: 0 <= i < |t.ads| ==> AdRowOk(t.ads[i]))
    && (forall i :: 0 <= i < |t.versions| ==> VersionRowOk(t.versions[i]))
    && (forall i :: 0 <= i < |t.platforms| ==> PlatformRowOk(t.platforms[i]))
  }

  /** The unique ad_id column and the primary key, with every key below
      the next one to be handed out. */
  ghost predicate Keyed(ads: seq<AdRow>, next: nat)
  {
    && (forall i, j :: 0 <= i < j < |ads| ==> ads[i].adId != ads[j].adId && ads[i].id != ads[j].id)
    && (forall i :: 0 <= i < |ads| ==> ads[i].id < next)
  }

  /** Version and platform rows refer to keys already handed out. */
  ghost predicate Referenced(t: Tables, next: nat)
  {
    && (forall i :: 0 <= i < |t.versions| ==> t.versions[i].adKey < next)
    && (forall i :: 0 <= i < |t.platforms| ==> t.platforms[i].adKey < next)
  }

  ghost predicate Consistent(t: Tables, next: nat)
  {
    RowsOk(t) && Keyed(t.ads, next) && Referenced(t, next)
  }

  // ---------------------------------------------------------------------
  // Reading an entry

  /** `parse_date(v)`: None for a falsy value, for a value strptime rejects
      (a non-string raises TypeError, which the bare except catches), and for
      a string that is not a date in `%Y-%m-%d` form. */
  function ParseDate(v: Json): (r: Option<Date>)
    ensures r.Some? ==> v.Str? && StrpDate(v.s) == r
    ensures v.Str? && v.s != "" ==> r == StrpDate(v.s)
  {
    if !Truthy(v) then None
    else if v.Str? then StrpDate(v.s)
    else None
  }

  /** `AdStatus(value)`: lookup by value, ValueError otherwise. */
  function StatusOf(v: Json): Result<AdStatus, PyError>
  {
    if v == Str("active") then Success(ACTIVE)
    else if v == Str("inactive") then Success(INACTIVE)
    else Failure(ValueError)
  }

  /** The asset type of a version: a falsy value gives None, and so does
      any value `AssetType(...)` rejects, the exception being swallowed. */
  function AssetTypeOf(version: Json): (r: Option<AssetType>)
    ensures r == Some(IMAGE) <==> Field(version, "asset_type") == Str("image")
    ensures r == Some(VIDEO) <==> Field(version, "asset_type") == Str("video")
  {
    var v := Field(version, "asset_type");
    if !Truthy(v) then None
    else if v == Str("image") then Some(IMAGE)
    else if v == Str("video") then Some(VIDEO)
    else None
  }

  /** The ad columns an entry sets, evaluated in the source's order. */
  datatype Fields = Fields(
    status: AdStatus,
    startDate: Option<Date>,
    endDate: Option<Date>,
    pageName: Json,
    pageProfileUri: Json)

  function EntryFields(e: Json): Result<Fields, PyError>
  {
    var statusValue :- Subscript(e, "status");
    var status :- StatusOf(statusValue);
    var start :- Subscript(e, "start_date");
    Success(Fields(status, ParseDate(start), ParseDate(Field(e, "end_date")),
                   Field(e, "page_name"), Field(e, "page_profile_uri")))
  }

  /** The row of the ad with this ad_id, if any. */
  function FindAd(ads: seq<AdRow>, adId: Json): (r: Option<nat>)
    ensures r.Some? ==> r.value < |ads| && ads[r.value].adId == adId
    ensures r.None? <==> forall j :: 0 <= j < |ads| ==> ads[j].adId != adId
  {
    if ads == [] then None
    else if ads[|ads| - 1].adId == adId && FindAd(ads[..|ads| - 1], adId).None? then Some(|ads| - 1)
    else
      var r := FindAd(ads[..|ads| - 1], adId);
      assert forall j :: 0 <= j < |ads| - 1 ==> ads[..|ads| - 1][j] == ads[j];
      r
  }

  function Updated(a: AdRow, f: Fields): AdRow
  {
    a.(status := f.status, startDate := f.startDate, endDate := f.endDate,
       pageName := f.pageName, pageProfileUri := f.pageProfileUri)
  }

  function NewAd(key: nat, adId: Json, f: Fields): AdRow
  {
    AdRow(key, adId, f.status, f.startDate, f.endDate, f.pageName, f.pageProfileUri)
  }

  function VersionOf(key: nat, n: nat, v: Json): VersionRow
  {
    VersionRow(key, n,
      Field(v, "ad_copy"), Field(v, "title"), Field(v, "image_url"), Field(v, "video_url"),
      AssetTypeOf(v),
      Field(v, "link_url"), Field(v, "link_description"), Field(v, "cta_text"), Field(v, "cta_type"),
      Field(v, "caption"))
  }

  /** The version rows created for an ad: numbered from 1 in input order. */
  function VersionRowsOf(key: nat, items: seq<Json>): (r: seq<VersionRow>)
    ensures |r| == |items|
    ensures forall i :: 0 <= i < |items| ==> r[i] == VersionOf(key, i + 1, items[i])
  {
    if items == [] then []
    else
      var init := items[..|items| - 1];
      assert forall i :: 0 <= i < |init| ==> init[i] == items[i];
      VersionRowsOf(key, init) + [VersionOf(key, |items|, items[|items| - 1])]
  }

  /** The platform rows created for an ad: one per listed platform, in
      order, duplicates kept. */
  function PlatformRowsOf(key: nat, items: seq<Json>): (r: seq<PlatformRow>)
    ensures |r| == |items|
    ensures forall i :: 0 <= i < |items| ==> r[i] == PlatformRow(key, items[i])
  {
    if items == [] then []
    else PlatformRowsOf(key, items[..|items| - 1]) + [PlatformRow(key, items[|items| - 1])]
  }

  function VersionKey(v: VersionRow): nat { v.adKey }

  function PlatformKey(p: PlatformRow): nat { p.adKey }

  /** The rows whose key is `key` (`same`) or is not (`!same`). */
  function Where<T(!new)>(rows: seq<T>, keyOf: T -> nat, key: nat, same: bool): (r: seq<T>)
    ensures |r| <= |rows|
    ensures forall x :: x in r <==> x in rows && (keyOf(x) == key) == same
  {
    if rows == [] then []
    else
      var rest := Where(rows[1..], keyOf, key, same);
      assert forall x :: x in rows[1..] ==> x in rows;
      if (keyOf(rows[0]) == key) == same then [rows[0]] + rest else rest
  }

  /** The two bulk deletes of an update. */
  function WithoutRelations(t: Tables, key: nat): Tables
  {
    t.(versions := Where(t.versions, VersionKey, key, false),
       platforms := Where(t.platforms, PlatformKey, key, false))
  }

  // ---------------------------------------------------------------------
  // One entry

  /** How the body of the per-entry `try` ends: with a commit, or with an
      exception after the counters it reached were bumped. `next` is the key
      counter afterwards. */
  datatype Attempt =
    | Committed(tables: Tables, next: nat, isNew: bool)
    | Raised(next: nat, imported: bool, updated: bool)

  /** The lookup, the update or insert and flush, then the relations and
      the commit. */
  function TryEntry(t: Tables, next: nat, e: Json): Attempt
  {
    match Subscript(e, "ad_id")
    case Failure(_) => Raised(next, false, false)
    case Success(adId) =>
      if !Scalar(adId) then Raised(next, false, false)
      else
        match EntryFields(e)
        case Failure(_) => Raised(next, false, false)
        case Success(f) =>
          match FindAd(t.ads, adId)
          case Some(i) =>
            var key := t.ads[i].id;
            Relations(WithoutRelations(t, key).(ads := t.ads[i := Updated(t.ads[i], f)]), key, next, e, false)
          case None =>
            var row := NewAd(next, adId, f);
            if !AdRowOk(row) then Raised(next + 1, false, false)
            else Relations(t.(ads := t.ads + [row]), next, next + 1, e, true)
  }

  /** Every item is a dict. */
  predicate AllDicts(items: seq<Json>)
  {
    forall i :: 0 <= i < |items| ==> items[i].Obj?
  }

  /** The platform and version loops and the commit, once the ad row is in
      place; the counter for the ad (imported or updated) was bumped. */
  function Relations(base: Tables, key: nat, next: nat, e: Json, isNew: bool): Attempt
  {
    match Iter(GetOr(e, "platforms", EmptyArr))
    case Failure(_) => Raised(next, isNew, !isNew)
    case Success(ps) =>
      match Iter(GetOr(e, "versions", EmptyArr))
      case Failure(_) => Raised(next, isNew, !isNew)
      case Success(vs) =>
        if !AllDicts(vs) then Raised(next, isNew, !isNew)
        else
          var t := Tables(base.ads, base.versions + VersionRowsOf(key, vs), base.platforms + PlatformRowsOf(key, ps));
          if RowsOk(t) then Committed(t, next, isNew) else Raised(next, isNew, !isNew)
  }

  datatype Report = Report(imported: nat, updated: nat, errors: nat)

  datatype RunState = RunState(tables: Tables, next: nat, report: Report)

  function Bump(r: Report, imported: bool, updated: bool, failed: bool): Report
  {
    Report(r.imported + (if imported then 1 else 0),
           r.updated + (if updated then 1 else 0),
           r.errors + (if failed then 1 else 0))
  }

  /** One iteration of the loop whose handler does not raise: a commit
      keeps the new tables, an exception rolls back to the tables before the
      entry and counts an error. */
  function Step(s: RunState, e: Json): RunState
  {
    match TryEntry(s.tables, s.next, e)
    case Committed(t, n, isNew) => RunState(t, n, Bump(s.report, isNew, !isNew, false))
    case Raised(n, imported, updated) => RunState(s.tables, n, Bump(s.report, imported, updated, true))
  }

  /** How the import ends: with the summary, or with an exception escaping
      (the committed tables stay). */
  datatype RunResult =
    | Finished(tables: Tables, next: nat, report: Report)
    | Aborted(tables: Tables, next: nat)

  /** The loop as written: the handler's message calls `ad_data.get`, which
      raises for an entry that is not a dict, ending the import. */
  function RunFrom(s: RunState, entries: seq<Json>): RunResult
    decreases |entries|
  {
    if entries == [] then Finished(s.tables, s.next, s.report)
    else if !entries[0].Obj? then Aborted(s.tables, s.next)
    else RunFrom(Step(s, entries[0]), entries[1..])
  }

  /** `import_ads_from_json` after the file is loaded into `data`. */
  function ImportRun(t: Tables, next: nat, data: Json): RunResult
  {
    match Get(data, "ads", EmptyArr)
    case Failure(_) => Aborted(t, next)
    case Success(adsData) =>
      match Iter(adsData)
      case Failure(_) => Aborted(t, next)
      case Success(entries) => RunFrom(RunState(t, next, Report(0, 0, 0)), entries)
  }

  // ---------------------------------------------------------------------
  // Properties of one entry

  lemma {:induction false} WhereAppend<T(!new)>(a: seq<T>, b: seq<T>, keyOf: T -> nat, key: nat, same: bool)
    ensures Where(a + b, keyOf, key, same) == Where(a, keyOf, key, same) + Where(b, keyOf, key, same)
  {
    if a == [] {
      assert a + b == b;
    } else {
      var h := if (keyOf(a[0]) == key) == same then [a[0]] else [];
      assert (a + b)[0] == a[0];
      assert (a + b)[1..] == a[1..] + b;
      assert Where(a + b, keyOf, key, same) == h + Where(a[1..] + b, keyOf, key, same);
      WhereAppend(a[1..], b, keyOf, key, same);
      Text.AppendAssoc(h, Where(a[1..], keyOf, key, same), Where(b, keyOf, key, same));
    }
  }

  /** Keeping the rows of `k2` after deleting those of `k1`. */
  lemma {:induction false} WhereAfterDelete<T(!new)>(rows: seq<T>, keyOf: T -> nat, k1: nat, k2: nat)
    ensures Where(Where(rows, keyOf, k1, false), keyOf, k2, true) == if k1 == k2 then [] else Where(rows, keyOf, k2, true)
  {
    if rows != [] {
      WhereAfterDelete(rows[1..], keyOf, k1, k2);
      if keyOf(rows[0]) != k1 {
        assert ([rows[0]] + Where(rows[1..], keyOf, k1, false))[1..] == Where(rows[1..], keyOf, k1, false);
      }
    }
  }

  /** Rows all carrying one key. */
  lemma {:induction false} WhereUniform<T(!new)>(rows: seq<T>, keyOf: T -> nat, key: nat, k: nat)
    requires forall i :: 0 <= i < |rows| ==> keyOf(rows[i]) == key
    ensures Where(rows, keyOf, k, true) == if k == key then rows else []
  {
    if rows != [] {
      WhereUniform(rows[1..], keyOf, key, k);
      if k == key {
        assert [rows[0]] + rows[1..] == rows;
      }
    }
  }

  /** No row refers to a key not yet handed out. */
  lemma WhereFresh<T(!new)>(rows: seq<T>, keyOf: T -> nat, next: nat)
    requires forall i :: 0 <= i < |rows| ==> keyOf(rows[i]) < next
    ensures Where(rows, keyOf, next, true) == []
  {
  }

  /** Deleting the rows of `key` (or finding none, for a fresh key) and then
      appending rows of `key` leaves that key with exactly the appended rows
      and every other key with its own. */
  lemma ReplaceRows<T(!new)>(rows: seq<T>, added: seq<T>, keyOf: T -> nat, key: nat, deleted: bool)
    requires forall i :: 0 <= i < |added| ==> keyOf(added[i]) == key
    requires !deleted ==> forall i :: 0 <= i < |rows| ==> keyOf(rows[i]) < key
    ensures Where((if deleted then Where(rows, keyOf, key, false) else rows) + added, keyOf, key, true) == added
    ensures forall k :: k != key ==>
              Where((if deleted then Where(rows, keyOf, key, false) else rows) + added, keyOf, k, true) ==
              Where(rows, keyOf, k, true)
  {
    var kept := if deleted then Where(rows, keyOf, key, false) else rows;
    WhereAppend(kept, added, keyOf, key, true);
    WhereUniform(added, keyOf, key, key);
    if deleted {
      WhereAfterDelete(rows, keyOf, key, key);
    } else {
      WhereFresh(rows, keyOf, key);
    }
    forall k | k != key ensures Where(kept + added, keyOf, k, true) == Where(rows, keyOf, k, true) {
      WhereAppend(kept, added, keyOf, k, true);
      WhereUniform(added, keyOf, key, k);
      if deleted {
        WhereAfterDelete(rows, keyOf, key, k);
      }
      assert Where(kept + added, keyOf, k, true) == Where(kept, keyOf, k, true) + [];
    }
  }

  /** What the relation loops and the commit produce from the rows in place. */
  lemma RelationsSpec(base: Tables, key: nat, next: nat, e: Json, isNew: bool)
    ensures var a := Relations(base, key, next, e, isNew);
            && a.next == next
            && (a.Committed? ==>
                  && a.isNew == isNew
                  && Iter(GetOr(e, "platforms", EmptyArr)).Success?
                  && Iter(GetOr(e, "versions", EmptyArr)).Success?
                  && AllDicts(Iter(GetOr(e, "versions", EmptyArr)).value)
                  && a.tables.ads == base.ads
                  && a.tables.versions == base.versions + VersionRowsOf(key, Iter(GetOr(e, "versions", EmptyArr)).value)
                  && a.tables.platforms == base.platforms + PlatformRowsOf(key, Iter(GetOr(e, "platforms", EmptyArr)).value)
                  && RowsOk(a.tables))
            && (a.Raised? ==> a.imported == isNew && a.updated == !isNew)
  {
  }

  /** The key of the ad row an entry with this ad_id is written to. */
  function EntryKey(t: Tables, next: nat, adId: Json): nat
  {
    match FindAd(t.ads, adId)
    case Some(i) => t.ads[i].id
    case None => next
  }

  /** The ad row an entry writes before its relations. */
  function UpsertedAds(t: Tables, next: nat, adId: Json, f: Fields): seq<AdRow>
  {
    match FindAd(t.ads, adId)
    case Some(i) => t.ads[i := Updated(t.ads[i], f)]
    case None => t.ads + [NewAd(next, adId, f)]
  }

  /** A committed entry: the ad rows are the upsert of its fields (an
      existing ad updated in place under its own key, or a new row under the
      next key), and its versions and platforms are exactly the rows built
      from the entry, those of every other ad being untouched. */
  lemma CommittedEntry(t: Tables, next: nat, e: Json)
    requires Consistent(t, next)
    requires TryEntry(t, next, e).Committed?
    ensures Subscript(e, "ad_id").Success? && EntryFields(e).Success?
    ensures var adId := Subscript(e, "ad_id").value;
            var key := EntryKey(t, next, adId);
            var a := TryEntry(t, next, e);
            && a.tables.ads == UpsertedAds(t, next, adId, EntryFields(e).value)
            && a.isNew == FindAd(t.ads, adId).None?
            && a.next == (if a.isNew then next + 1 else next)
            && Where(a.tables.versions, VersionKey, key, true) == VersionRowsOf(key, Iter(GetOr(e, "versions", EmptyArr)).value)
            && Where(a.tables.platforms, PlatformKey, key, true) == PlatformRowsOf(key, Iter(GetOr(e, "platforms", EmptyArr)).value)
            && (forall k :: k != key ==> Where(a.tables.versions, VersionKey, k, true) == Where(t.versions, VersionKey, k, true))
            && (forall k :: k != key ==> Where(a.tables.platforms, PlatformKey, k, true) == Where(t.platforms, PlatformKey, k, true))
  {
    var adId := Subscript(e, "ad_id").value;
    var f := EntryFields(e).value;
    var key := EntryKey(t, next, adId);
    var vs := Iter(GetOr(e, "versions", EmptyArr)).value;
    var ps := Iter(GetOr(e, "platforms", EmptyArr)).value;
    var base := if FindAd(t.ads, adId).Some? then WithoutRelations(t, key).(ads := UpsertedAds(t, next, adId, f))
                else t.(ads := UpsertedAds(t, next, adId, f));
    var nextAfter := if FindAd(t.ads, adId).Some? then next else next + 1;
    assert TryEntry(t, next, e) == Relations(base, key, nextAfter, e, FindAd(t.ads, adId).None?);
    RelationsSpec(base, key, nextAfter, e, FindAd(t.ads, adId).None?);
    ReplaceRows(t.versions, VersionRowsOf(key, vs), VersionKey, key, FindAd(t.ads, adId).Some?);
    ReplaceRows(t.platforms, PlatformRowsOf(key, ps), PlatformKey, key, FindAd(t.ads, adId).Some?);
  }

  /** The entry got as far as the lookup with a bindable ad_id and all of
      its ad columns read. */
  predicate Reached(e: Json)
  {
    Subscript(e, "ad_id").Success? && Scalar(Subscript(e, "ad_id").value) && EntryFields(e).Success?
  }

  /** An existing ad was updated (line 70 reached). */
  predicate Matched(t: Tables, e: Json)
  {
    Reached(e) && FindAd(t.ads, Subscript(e, "ad_id").value).Some?
  }

  /** A new ad was inserted and its flush succeeded (line 83 reached). */
  predicate Flushed(t: Tables, next: nat, e: Json)
  {
    && Reached(e) && FindAd(t.ads, Subscript(e, "ad_id").value).None?
    && AdRowOk(NewAd(next, Subscript(e, "ad_id").value, EntryFields(e).value))
  }

  /** The counters of one iteration: `imported_count` grows exactly when a
      new ad was flushed, `updated_count` exactly when an existing ad was
      matched, `error_count` exactly when the entry was rolled back; so an
      entry that fails after line 70 or 83 is counted twice. The tables are
      unchanged by a rolled-back entry and the key counter never goes back. */
  lemma StepReport(s: RunState, e: Json)
    ensures var r := Step(s, e).report;
            var a := TryEntry(s.tables, s.next, e);
            && r.imported == s.report.imported + (if Flushed(s.tables, s.next, e) then 1 else 0)
            && r.updated == s.report.updated + (if Matched(s.tables, e) then 1 else 0)
            && r.errors == s.report.errors + (if a.Raised? then 1 else 0)
            && (a.Raised? ==> Step(s, e).tables == s.tables)
            && s.next <= Step(s, e).next
  {
    var t := s.tables;
    if Reached(e) {
      var adId := Subscript(e, "ad_id").value;
      var f := EntryFields(e).value;
      match FindAd(t.ads, adId)
      case Some(i) =>
        var key := t.ads[i].id;
        RelationsSpec(WithoutRelations(t, key).(ads := t.ads[i := Updated(t.ads[i], f)]), key, s.next, e, false);
      case None =>
        if AdRowOk(NewAd(s.next, adId, f)) {
          RelationsSpec(t.(ads := t.ads + [NewAd(s.next, adId, f)]), s.next, s.next + 1, e, true);
        }
    }
  }

  /** Only an entry whose columns could all be read can commit. */
  lemma TryEntryCommittedReached(t: Tables, next: nat, e: Json)
    ensures TryEntry(t, next, e).Committed? ==> Reached(e)
  {
  }

  /** The upsert keeps ad_id and the primary key unique. */
  lemma UpsertKeyed(t: Tables, next: nat, adId: Json, f: Fields)
    requires Keyed(t.ads, next)
    ensures Keyed(UpsertedAds(t, next, adId, f), if FindAd(t.ads, adId).Some? then next else next + 1)
  {
    var ads := UpsertedAds(t, next, adId, f);
    if FindAd(t.ads, adId).None? {
      forall i, j | 0 <= i < j < |ads|
        ensures ads[i].adId != ads[j].adId && ads[i].id != ads[j].id
      {
        if j == |t.ads| {
          assert ads[i] == t.ads[i];
        }
      }
    }
  }

  /** The relation rows added under a key already handed out keep every
      row referring to a handed-out key. */
  lemma RelationsConsistent(base: Tables, key: nat, next: nat, e: Json, isNew: bool)
    requires Keyed(base.ads, next) && Referenced(base, next) && key < next
    ensures Relations(base, key, next, e, isNew).Committed? ==>
              Consistent(Relations(base, key, next, e, isNew).tables, next)
  {
    RelationsSpec(base, key, next, e, isNew);
    var a := Relations(base, key, next, e, isNew);
    if a.Committed? {
      VersionKeysBelow(base.versions, key, Iter(GetOr(e, "versions", EmptyArr)).value, next);
      PlatformKeysBelow(base.platforms, key, Iter(GetOr(e, "platforms", EmptyArr)).value, next);
    }
  }

  lemma VersionKeysBelow(before: seq<VersionRow>, key: nat, vs: seq<Json>, next: nat)
    requires key < next && forall i :: 0 <= i < |before| ==> before[i].adKey < next
    ensures forall i :: 0 <= i < |before + VersionRowsOf(key, vs)| ==> (before + VersionRowsOf(key, vs))[i].adKey < next
  {
  }

  lemma PlatformKeysBelow(before: seq<PlatformRow>, key: nat, ps: seq<Json>, next: nat)
    requires key < next && forall i :: 0 <= i < |before| ==> before[i].adKey < next
    ensures forall i :: 0 <= i < |before + PlatformRowsOf(key, ps)| ==> (before + PlatformRowsOf(key, ps))[i].adKey < next
  {
  }

  /** The bulk deletes keep a subset of the rows. */
  lemma WithoutRelationsReferenced(t: Tables, key: nat, next: nat)
    requires Referenced(t, next)
    ensures Referenced(WithoutRelations(t, key), next)
  {
    var w := WithoutRelations(t, key);
    forall i | 0 <= i < |w.versions| ensures w.versions[i].adKey < next {
      assert w.versions[i] in t.versions;
    }
    forall i | 0 <= i < |w.platforms| ensures w.platforms[i].adKey < next {
      assert w.platforms[i] in t.platforms;
    }
  }

  /** Every committed entry leaves the tables consistent: column
      constraints hold, ad_id and keys are unique, and every version and
      platform row belongs to a key already handed out. */
  lemma TryEntryKeepsConsistent(t: Tables, next: nat, e: Json)
    requires Consistent(t, next)
    ensures next <= TryEntry(t, next, e).next
    ensures TryEntry(t, next, e).Committed? ==> Consistent(TryEntry(t, next, e).tables, TryEntry(t, next, e).next)
  {
    StepReport(RunState(t, next, Report(0, 0, 0)), e);
    if Reached(e) {
      var adId := Subscript(e, "ad_id").value;
      var f := EntryFields(e).value;
      UpsertKeyed(t, next, adId, f);
      match FindAd(t.ads, adId)
      case Some(i) =>
        var key := t.ads[i].id;
        WithoutRelationsReferenced(t, key, next);
        RelationsConsistent(WithoutRelations(t, key).(ads := t.ads[i := Updated(t.ads[i], f)]), key, next, e, false);
      case None =>
        if AdRowOk(NewAd(next, adId, f)) {
          RelationsConsistent(t.(ads := t.ads + [NewAd(next, adId, f)]), next, next + 1, e, true);
        }
    }
  }

  // ---------------------------------------------------------------------
  // The run

  /** The loop with a handler that cannot raise: every entry is attempted
      and the import always reaches its summary. */
  function RunAll(s: RunState, entries: seq<Json>): RunState
    decreases |entries|
  {
    if entries == [] then s else RunAll(Step(s, entries[0]), entries[1..])
  }

  /** `import_ads_from_json` with that handler. */
  function ImportRunCorrected(t: Tables, next: nat, data: Json): RunResult
  {
    match Get(data, "ads", EmptyArr)
    case Failure(_) => Aborted(t, next)
    case Success(adsData) =>
      match Iter(adsData)
      case Failure(_) => Aborted(t, next)
      case Success(entries) =>
        var s := RunAll(RunState(t, next, Report(0, 0, 0)), entries);
        Finished(s.tables, s.next, s.report)
  }

  /** Consistency holds after any number of entries, and the key counter
      never goes back. */
  lemma {:induction false} RunKeepsConsistent(s: RunState, entries: seq<Json>)
    requires Consistent(s.tables, s.next)
    ensures Consistent(RunAll(s, entries).tables, RunAll(s, entries).next)
    ensures s.next <= RunAll(s, entries).next
    decreases |entries|
  {
    if entries != [] {
      TryEntryKeepsConsistent(s.tables, s.next, entries[0]);
      RunKeepsConsistent(Step(s, entries[0]), entries[1..]);
    }
  }

  /** One entry adds one or two to the three counters together. */
  lemma StepCounts(s: RunState, e: Json)
    ensures var r := Step(s, e).report;
            var before := s.report.imported + s.report.updated + s.report.errors;
            before + 1 <= r.imported + r.updated + r.errors <= before + 2
    ensures Step(s, e).report.errors <= s.report.errors + 1
  {
    StepReport(s, e);
    TryEntryCommittedReached(s.tables, s.next, e);
    if Reached(e) {
      var adId := Subscript(e, "ad_id").value;
      var f := EntryFields(e).value;
      if FindAd(s.tables.ads, adId).None? && !AdRowOk(NewAd(s.next, adId, f)) {
        assert TryEntry(s.tables, s.next, e).Raised?;
      }
    }
  }

  /** Each entry adds one or two to the three counters together: one when
      it commits (imported or updated), one more when it was rolled back
      after line 70 or 83. */
  lemma {:induction false} RunCounts(s: RunState, entries: seq<Json>)
    ensures var r := RunAll(s, entries).report;
            var before := s.report.imported + s.report.updated + s.report.errors;
            before + |entries| <= r.imported + r.updated + r.errors <= before + 2 * |entries|
    ensures RunAll(s, entries).report.errors <= s.report.errors + |entries|
    decreases |entries|
  {
    if entries != [] {
      StepCounts(s, entries[0]);
      RunCounts(Step(s, entries[0]), entries[1..]);
    }
  }

  /** An entry that is not a dict is rolled back and counted as an error
      by a handler that does not raise. */
  lemma NonDictStep(s: RunState, x: Json)
    requires !x.Obj?
    ensures Step(s, x) == s.(report := Bump(s.report, false, false, true))
  {
  }

  /** The loop as written agrees with the corrected one while every entry
      is a dict. */
  lemma {:induction false} RunFromAllDicts(s: RunState, entries: seq<Json>)
    requires forall i :: 0 <= i < |entries| ==> entries[i].Obj?
    ensures RunFrom(s, entries) == Finished(RunAll(s, entries).tables, RunAll(s, entries).next, RunAll(s, entries).report)
    decreases |entries|
  {
    if entries != [] {
      RunFromAllDicts(Step(s, entries[0]), entries[1..]);
    }
  }

  /** The loop as written stops at the first entry that is not a dict: the
      tables are those the entries before it committed, every later entry
      is never attempted and no summary is produced. */
  lemma {:induction false} NonDictEntryAborts(s: RunState, entries: seq<Json>, k: nat)
    requires k < |entries| && !entries[k].Obj?
    requires forall i :: 0 <= i < k ==> entries[i].Obj?
    ensures RunFrom(s, entries) == Aborted(RunAll(s, entries[..k]).tables, RunAll(s, entries[..k]).next)
    decreases k
  {
    if k > 0 {
      assert entries[1..][..k - 1] == entries[1..k];
      assert entries[..k][1..] == entries[1..k];
      NonDictEntryAborts(Step(s, entries[0]), entries[1..], k - 1);
    }
  }

  /** A concrete file `{"ads": ["x", {}]}`: as written, the import aborts on
      the string before reaching the empty entry; corrected, both entries are
      counted as errors and the summary is reached. */
  lemma NonDictFileAborts(t: Tables, next: nat)
    ensures ImportRun(t, next, Obj([("ads", Arr([Str("x"), EmptyObj]))])) == Aborted(t, next)
    ensures ImportRunCorrected(t, next, Obj([("ads", Arr([Str("x"), EmptyObj]))])) == Finished(t, next, Report(0, 0, 2))
  {
    var entries := [Str("x"), EmptyObj];
    var s0 := RunState(t, next, Report(0, 0, 0));
    NonDictEntryAborts(s0, entries, 0);
    NonDictStep(s0, Str("x"));
    var s1 := Step(s0, Str("x"));
    assert entries[1..] == [EmptyObj];
    assert TryEntry(s1.tables, s1.next, EmptyObj) == Raised(next, false, false);
    assert s1 == RunState(t, next, Report(0, 0, 1));
    assert RunAll(s0, entries) == RunAll(s1, [EmptyObj]);
    assert [EmptyObj][1..] == [];
    assert RunAll(s1, [EmptyObj]) == RunAll(Step(s1, EmptyObj), []);
    assert Step(s1, EmptyObj) == RunState(t, next, Report(0, 0, 2));
  }

  /** `.first()` finds the earliest matching row. */
  lemma {:induction false} FindAdFirst(ads: seq<AdRow>, adId: Json)
    ensures FindAd(ads, adId).Some? ==> forall j :: 0 <= j < FindAd(ads, adId).value ==> ads[j].adId != adId
  {
    if ads != [] {
      var init := ads[..|ads| - 1];
      FindAdFirst(init, adId);
      if FindAd(init, adId).Some? {
        assert forall j :: 0 <= j < |init| ==> init[j] == ads[j];
      }
    }
  }

  lemma PlatformRowsSnoc(before: seq<PlatformRow>, key: nat, ps: seq<Json>, k: nat)
    requires k < |ps|
    ensures before + PlatformRowsOf(key, ps[..k + 1]) == before + PlatformRowsOf(key, ps[..k]) + [PlatformRow(key, ps[k])]
  {
    assert ps[..k + 1][..k] == ps[..k];
  }

  lemma VersionRowsSnoc(before: seq<VersionRow>, key: nat, vs: seq<Json>, k: nat)
    requires k < |vs|
    ensures before + VersionRowsOf(key, vs[..k + 1]) == before + VersionRowsOf(key, vs[..k]) + [VersionOf(key, k + 1, vs[k])]
  {
    assert vs[..k + 1][..k] == vs[..k];
  }

  lemma AllDictsSnoc(items: seq<Json>, k: nat)
    requires k < |items|
    ensures AllDicts(items[..k + 1]) == (AllDicts(items[..k]) && items[k].Obj?)
  {
    assert forall i :: 0 <= i < k ==> items[..k + 1][i] == items[..k][i];
  }

  lemma AllDictsPrefix(items: seq<Json>, k: nat)
    requires k <= |items| && !AllDicts(items[..k])
    ensures !AllDicts(items)
  {
    var i :| 0 <= i < k && !items[..k][i].Obj?;
    assert items[i] == items[..k][i];
  }

  /** Handing out more keys keeps consistent tables consistent. */
  lemma ConsistentLater(t: Tables, next: nat, later: nat)
    requires Consistent(t, next) && next <= later
    ensures Consistent(t, later)
  {
  }

  // ---------------------------------------------------------------------
  // The session

  /** The database session of the importer over its three tables. The
      fields are what the session sees; `committed` is what the last commit
      wrote, to which a rollback returns; `nextKey` stands for the uuid4
      primary keys and is never reset. */
  class AdDatabase {
    var ads: seq<AdRow>
    var versions: seq<VersionRow>
    var platforms: seq<PlatformRow>
    var committed: Tables
    var nextKey: nat

    function Current(): Tables
      reads this
    {
      Tables(ads, versions, platforms)
    }

    /** Between entries: nothing is pending and the tables are consistent. */
    ghost predicate Valid()
      reads this
    {
      Current() == committed && Consistent(committed, nextKey)
    }

    constructor(t: Tables, next: nat)
      requires Consistent(t, next)
      ensures Valid() && Current() == t && nextKey == next
    {
      ads, versions, platforms := t.ads, t.versions, t.platforms;
      committed := t;
      nextKey := next;
    }

    /** `db.query(Ad).filter(Ad.ad_id == ad_id).first()`. */
    method FindAdIndex(adId: Json) returns (r: Option<nat>)
      ensures r == FindAd(ads, adId)
    {
      var j := 0;
      while j < |ads|
        invariant 0 <= j <= |ads|
        invariant forall k :: 0 <= k < j ==> ads[k].adId != adId
      {
        if ads[j].adId == adId {
          FindAdFirst(ads, adId);
          r := Some(j);
          return;
        }
        j := j + 1;
      }
      r := None;
    }

    /** The attribute assignments of an update. */
    method UpdateAd(i: nat, f: Fields)
      requires i < |ads|
      modifies this
      ensures ads == old(ads)[i := Updated(old(ads)[i], f)]
      ensures versions == old(versions) && platforms == old(platforms)
      ensures committed == old(committed) && nextKey == old(nextKey)
    {
      ads := ads[i := Updated(ads[i], f)];
    }

    /** The two bulk deletes of an update; they run at once. */
    method DeleteRelations(key: nat)
      modifies this
      ensures Current() == WithoutRelations(old(Current()), key)
      ensures committed == old(committed) && nextKey == old(nextKey)
    {
      versions := Where(versions, VersionKey, key, false);
      platforms := Where(platforms, PlatformKey, key, false);
    }

    /** `db.add(ad)` and `db.flush()`: the new row takes the next key and
        is written; the flush fails if a column constraint is broken. */
    method InsertAndFlush(adId: Json, f: Fields) returns (key: nat, ok: bool)
      modifies this
      ensures key == old(nextKey) && nextKey == old(nextKey) + 1
      ensures ok == AdRowOk(NewAd(key, adId, f))
      ensures ads == old(ads) + [NewAd(key, adId, f)]
      ensures versions == old(versions) && platforms == old(platforms) && committed == old(committed)
    {
      key := nextKey;
      nextKey := nextKey + 1;
      var row := NewAd(key, adId, f);
      ads := ads + [row];
      ok := AdRowOk(row);
    }

    method AddPlatform(row: PlatformRow)
      modifies this
      ensures platforms == old(platforms) + [row]
      ensures ads == old(ads) && versions == old(versions)
      ensures committed == old(committed) && nextKey == old(nextKey)
    {
      platforms := platforms + [row];
    }

    method AddVersion(row: VersionRow)
      modifies this
      ensures versions == old(versions) + [row]
      ensures ads == old(ads) && platforms == old(platforms)
      ensures committed == old(committed) && nextKey == old(nextKey)
    {
      versions := versions + [row];
    }

    /** `db.commit()`: writes what the session sees if every row satisfies
        its constraints, and fails otherwise. */
    method Commit() returns (ok: bool)
      modifies this
      ensures ok == RowsOk(old(Current()))
      ensures Current() == old(Current()) && nextKey == old(nextKey)
      ensures committed == if ok then Current() else old(committed)
    {
      ok := RowsOk(Current());
      if ok {
        committed := Current();
      }
    }

    /** `db.rollback()`: back to the last commit. */
    method Rollback()
      modifies this
      ensures Current() == committed && committed == old(committed) && nextKey == old(nextKey)
    {
      ads, versions, platforms := committed.ads, committed.versions, committed.platforms;
    }

    /** `for platform in platforms: db.add(AdPlatform(...))`. */
    method AddPlatforms(key: nat, ps: seq<Json>)
      modifies this
      ensures platforms == old(platforms) + PlatformRowsOf(key, ps)
      ensures ads == old(ads) && versions == old(versions)
      ensures committed == old(committed) && nextKey == old(nextKey)
    {
      for k := 0 to |ps|
        invariant platforms == old(platforms) + PlatformRowsOf(key, ps[..k])
        invariant ads == old(ads) && versions == old(versions)
        invariant committed == old(committed) && nextKey == old(nextKey)
      {
        AddPlatform(PlatformRow(key, ps[k]));
        PlatformRowsSnoc(old(platforms), key, ps, k);
      }
      assert ps[..|ps|] == ps;
    }

    /** `for idx, version_data in enumerate(versions, start=1)`: stops at
        the first version that is not a dict (`.get` raises). */
    method AddVersions(key: nat, vs: seq<Json>) returns (ok: bool)
      modifies this
      ensures ok == AllDicts(vs)
      ensures ok ==> versions == old(versions) + VersionRowsOf(key, vs)
      ensures ads == old(ads) && platforms == old(platforms)
      ensures committed == old(committed) && nextKey == old(nextKey)
    {
      for k := 0 to |vs|
        invariant versions == old(versions) + VersionRowsOf(key, vs[..k])
        invariant AllDicts(vs[..k])
        invariant ads == old(ads) && platforms == old(platforms)
        invariant committed == old(committed) && nextKey == old(nextKey)
      {
        AllDictsSnoc(vs, k);
        if !vs[k].Obj? {
          AllDictsPrefix(vs, k + 1);
          return false;
        }
        AddVersion(VersionOf(key, k + 1, vs[k]));
        VersionRowsSnoc(old(versions), key, vs, k);
      }
      assert vs[..|vs|] == vs;
      ok := true;
    }

    /** The platform loop, the version loop and the commit, once the ad row
        is in place under `key`. */
    method AddRelations(e: Json, key: nat, isNew: bool) returns (a: Attempt)
      requires e.Obj?
      modifies this
      ensures a == Relations(old(Current()), key, old(nextKey), e, isNew)
      ensures nextKey == old(nextKey)
      ensures a.Committed? ==> Current() == committed == a.tables
      ensures a.Raised? ==> committed == old(committed)
    {
      var platformsOr := Iter(GetOr(e, "platforms", EmptyArr));
      if platformsOr.Failure? {
        return Raised(nextKey, isNew, !isNew);
      }
      AddPlatforms(key, platformsOr.value);
      var versionsOr := Iter(GetOr(e, "versions", EmptyArr));
      if versionsOr.Failure? {
        return Raised(nextKey, isNew, !isNew);
      }
      var allDicts := AddVersions(key, versionsOr.value);
      if !allDicts {
        return Raised(nextKey, isNew, !isNew);
      }
      var ok := Commit();
      if ok {
        a := Committed(Current(), nextKey, isNew);
      } else {
        a := Raised(nextKey, isNew, !isNew);
      }
    }

    /** The body of the per-entry `try`: lookup, update or insert and
        flush, relations, commit. */
    method TryImport(e: Json) returns (a: Attempt)
      requires Valid()
      modifies this
      ensures a == TryEntry(old(Current()), old(nextKey), e)
      ensures nextKey == a.next
      ensures a.Committed? ==> Current() == committed == a.tables
      ensures a.Raised? ==> committed == old(committed)
    {
      var adIdOr := Subscript(e, "ad_id");
      if adIdOr.Failure? {
        return Raised(nextKey, false, false);
      }
      var adId := adIdOr.value;
      if !Scalar(adId) {
        return Raised(nextKey, false, false);
      }
      var fieldsOr := EntryFields(e);
      if fieldsOr.Failure? {
        return Raised(nextKey, false, false);
      }
      var f := fieldsOr.value;
      var found := FindAdIndex(adId);
      if found.Some? {
        var i := found.value;
        var key := ads[i].id;
        UpdateAd(i, f);
        DeleteRelations(key);
        a := AddRelations(e, key, false);
      } else {
        var key, ok := InsertAndFlush(adId, f);
        if !ok {
          return Raised(nextKey, false, false);
        }
        a := AddRelations(e, key, true);
      }
    }

    /** One iteration of the loop: the `try` body, and on an exception the
        handler's rollback and count. `crashed` tells that the handler's
        own message raised (`.get` on an entry that is not a dict). */
    method ImportEntry(e: Json, report: Report) returns (report': Report, crashed: bool)
      requires Valid()
      modifies this
      ensures RunState(Current(), nextKey, report') == Step(RunState(old(Current()), old(nextKey), report), e)
      ensures crashed == !e.Obj?
      ensures Valid()
    {
      TryEntryKeepsConsistent(Current(), nextKey, e);
      TryEntryCommittedReached(Current(), nextKey, e);
      var a := TryImport(e);
      if a.Committed? {
        report' := Bump(report, a.isNew, !a.isNew, false);
        crashed := false;
      } else {
        Rollback();
        ConsistentLater(committed, old(nextKey), nextKey);
        report' := Bump(report, a.imported, a.updated, true);
        crashed := Get(e, "ad_id", Str("unknown")).Failure?;
      }
    }

    /** `import_ads_from_json` once the file is loaded into `data`. */
    method ImportAdsFromJson(data: Json) returns (r: RunResult)
      requires Valid()
      modifies this
      ensures r == ImportRun(old(Current()), old(nextKey), data)
      ensures Current() == r.tables && nextKey == r.next
      ensures Valid()
    {
      var adsOr := Get(data, "ads", EmptyArr);
      if adsOr.Failure? {
        return Aborted(Current(), nextKey);
      }
      var entriesOr := Iter(adsOr.value);
      if entriesOr.Failure? {
        return Aborted(Current(), nextKey);
      }
      var entries := entriesOr.value;
      var report := Report(0, 0, 0);
      ghost var s0 := RunState(Current(), nextKey, report);
      var i := 0;
      while i < |entries|
        invariant 0 <= i <= |entries|
        invariant Valid()
        invariant RunFrom(RunState(Current(), nextKey, report), entries[i..]) == RunFrom(s0, entries)
      {
        ghost var before := RunState(Current(), nextKey, report);
        var crashed;
        report, crashed := ImportEntry(entries[i], report);
        if crashed {
          return Aborted(Current(), nextKey);
        }
        assert entries[i..][1..] == entries[i + 1..];
        i := i + 1;
      }
      r := Finished(Current(), nextKey, report);
    }
  }
}

# Ads library scraper and dashboard backend — a Dafny model

The system scrapes the Facebook Ads Library and serves what it collected.
It has two halves, and this project models the core of each.

**Scraper (Python).**
- `graphql_parser.py` turns captured GraphQL responses into flat ad records:
  - platform codes become display names;
  - each card of a collated result becomes one ad version, with its image or video asset chosen by priority;
  - ads are deduplicated by ad id, in encounter order, up to `max_ads`;
  - a result or response that raises is skipped.
- `import_ads.py` upserts those records into three tables (`ads`, `ad_versions`, `ad_platforms`) through one SQLAlchemy session, one transaction per entry:
  - an existing ad (same `ad_id`) is updated in place and its versions and platforms are recreated;
  - a new ad is inserted and flushed;
  - a failing entry is rolled back and counted as an error.

**Backend (TypeScript).**
- `PostgreSQLAdRepository` builds SQL from optional filters. It pushes one condition per truthy filter, binds values to `$1, $2, …` and reads:
  - a filtered, newest-first, paginated list with each ad's versions and platforms;
  - a count;
  - per-day counts split by status;
  - per-platform counts.
- `AdService` delegates to it. Its statistics bundle five reads.

Modules, one per file:
- `wrappers.dfy`: Option and Result.
- `text.dfy`: ASCII case mapping, substring tests, code-point string order, a stable sort for ORDER BY.
- `like.dfy`: PostgreSQL LIKE/ILIKE matching.
- `store.dfy`: the backend's tables and the statement forms the repository issues, with what each returns.
- `repository.dfy`: the clause builders, proved to select exactly the ads a reference predicate describes, and the reads.
- `service.dfy`: the service.
- `pyjson.dfy`: decoded JSON with Python's `.get`, subscript, iteration, truthiness and `str()`.
- `graphql_parser.dfy`: the parser.
- `dates.dfy`: `strptime(s, "%Y-%m-%d")` over ASCII digits.
- `import_ads.dfy`: the importer:
  - specification functions for one entry and for the run;
  - the consistency invariant the run keeps;
  - the session as a class `AdDatabase`, whose fields are the three tables, the committed snapshot and the key counter, with methods proved against those functions.

Each side uses its own status spelling:
- the scraper writes lowercase `"active"`/`"inactive"`, and `AdStatus(...)` looks them up by value;
- the backend compares the stored member names `'ACTIVE'`/`'INACTIVE'`.
- the column's type is the PostgreSQL enum `adstatus`, so a status filter with any other text (`active`, say) makes every statement that binds it fail, and the model returns that failure from findAll, count, getPlatformStats and the statistics.

## Model

| member | source | states |
|---|---|---|
| Like.ContainsPattern | backend/src/repositories/implementations/PostgreSQLAdRepository.ts:55 | the page-name value is bound wrapped in one `%` on each side, the value itself unchanged in between |
| Like.EscapeLikeNoWildcards | backend/src/repositories/implementations/PostgreSQLAdRepository.ts:53-56 | escaping changes nothing in a value without `%`, `_` or backslash |
| Like.LowerEscapeLike | backend/src/repositories/implementations/PostgreSQLAdRepository.ts:54 | escaping commutes with the lower-casing ILIKE applies |
| Like.LikeEscapedPrefix | backend/src/repositories/implementations/PostgreSQLAdRepository.ts:54 | an escaped literal followed by a pattern matches exactly the strings starting with the literal whose rest matches the pattern |
| Like.LikePercentMatchesAll | backend/src/repositories/implementations/PostgreSQLAdRepository.ts:55 | `%` alone matches every string |
| Like.LikeEscapedContains | backend/src/repositories/implementations/PostgreSQLAdRepository.ts:54-55 | `%` + escaped value + `%` matches a string iff the value is a substring of it |
| Like.PageNamePatternIsContains | backend/src/repositories/implementations/PostgreSQLAdRepository.ts:53-56 | for a value without special characters, the page-name filter as written keeps exactly the names containing the value, ignoring case |
| Like.EscapedPageNamePatternIsContains | backend/src/repositories/implementations/PostgreSQLAdRepository.ts:53-56 | with the value escaped, the filter keeps exactly the names containing the value, ignoring case, for every value |
| Like.UnderscoreValueMatchesAnyName | backend/src/repositories/implementations/PostgreSQLAdRepository.ts:53-56 | the value `_` as written matches the name "Acme", which does not contain `_` |
| Store.AppendedParamsKeepSelection | backend/src/repositories/implementations/PostgreSQLAdRepository.ts:83-92 | appending LIMIT/OFFSET values after every WHERE and JOIN placeholder selects the same ads |
| Store.Window | backend/src/repositories/implementations/PostgreSQLAdRepository.ts:101 | OFFSET/LIMIT returns at most `limit` items, element i being item offset+i, nothing past the end |
| Store.NewestFirstOrdered | backend/src/repositories/implementations/PostgreSQLAdRepository.ts:100 | ORDER BY created_at DESC is a permutation of the selected ads in non-increasing creation time |
| Store.WindowNewestFirst | backend/src/repositories/implementations/PostgreSQLAdRepository.ts:100-101 | every LIMIT/OFFSET window of that order is itself newest first |
| Store.NewestFirstDetermined | backend/src/repositories/implementations/PostgreSQLAdRepository.ts:100 | when no two ads share a created_at, every order ORDER BY created_at DESC allows is NewestFirst |
| Store.NewestThenIdDetermined | backend/src/repositories/implementations/PostgreSQLAdRepository.ts:100 | with ids a key, any two orders ORDER BY created_at DESC, id allows are equal |
| Store.NewestThenIdExists | backend/src/repositories/implementations/PostgreSQLAdRepository.ts:100 | some order of the ads meets ORDER BY created_at DESC, id |
| Store.AdWithId | backend/src/repositories/implementations/PostgreSQLAdRepository.ts:132-141 | the lookup by id is None iff no ad has the id, otherwise an ad that has it |
| Store.AdWithAdId | backend/src/repositories/implementations/PostgreSQLAdRepository.ts:156-165 | the lookup by ad_id is None iff no ad has it, otherwise an ad that has it |
| Store.VersionRowsOf | backend/src/repositories/implementations/PostgreSQLAdRepository.ts:293-294 | exactly the version rows whose foreign key is the ad's id |
| Store.PlatformRowsOf | backend/src/repositories/implementations/PostgreSQLAdRepository.ts:308-309 | exactly the platform rows whose foreign key is the ad's id |
| Store.VersionsQueryOrdered | backend/src/repositories/implementations/PostgreSQLAdRepository.ts:288-298 | the versions statement returns a permutation of the ad's version rows in ascending version_number |
| Store.PlatformsQueryOrdered | backend/src/repositories/implementations/PostgreSQLAdRepository.ts:305-313 | the platforms statement returns a permutation of the ad's platform rows in ascending platform name |
| Store.StartingOnWith | backend/src/repositories/implementations/PostgreSQLAdRepository.ts:231-232 | the ads of a day with a given status are at most all ads of that day |
| Store.AddToBucketsSpec | backend/src/repositories/implementations/PostgreSQLAdRepository.ts:229-236 | counting one more ad keeps the buckets strictly ascending by date, bumps exactly its day's bucket and adds one to the total |
| Store.BucketsOfSpec | backend/src/repositories/implementations/PostgreSQLAdRepository.ts:227-237 | the by-date rows are strictly ascending by date; each day's row is the reference count of ads starting that day, split by status; the counts add up to the number of ads |
| Store.BucketsAreNonEmpty | backend/src/repositories/implementations/PostgreSQLAdRepository.ts:229-232 | every reported day counts at least one ad, and its ACTIVE plus INACTIVE counts do not exceed it |
| Store.BucketAtFindsMember | backend/src/repositories/implementations/PostgreSQLAdRepository.ts:235-236 | looking up a reported day finds that day's row |
| Store.BucketAtBeforeFirst | backend/src/repositories/implementations/PostgreSQLAdRepository.ts:236 | no row is found for a day before the first reported one |
| Store.StatusesSplit | backend/src/repositories/implementations/PostgreSQLAdRepository.ts:231-232 | ACTIVE and INACTIVE counts of a day are disjoint, and add up to the day's count when every ad has one of the two statuses |
| Store.IdsOf | backend/src/repositories/implementations/PostgreSQLAdRepository.ts:274 | the set of ids of the selected ads |
| Store.RowsOfAds | backend/src/repositories/implementations/PostgreSQLAdRepository.ts:273-274 | the platform rows that join with a selected ad |
| Store.CountsOf | backend/src/repositories/implementations/PostgreSQLAdRepository.ts:272 | one count per platform group, the number of distinct ads in it |
| Store.AdsOn | backend/src/repositories/implementations/PostgreSQLAdRepository.ts:272 | reference: the distinct ads a set of platform rows puts on a platform |
| Store.GroupAtMember | backend/src/repositories/implementations/PostgreSQLAdRepository.ts:276 | a group found by platform is that platform's group when platforms are distinct |
| Store.GroupAtAbsent | backend/src/repositories/implementations/PostgreSQLAdRepository.ts:276 | a platform without a group has no ads |
| Store.AddToGroupsSpec | backend/src/repositories/implementations/PostgreSQLAdRepository.ts:276 | adding one joined row keeps the groups distinct by platform and adds its ad to its platform's group only |
| Store.GroupsOfSpec | backend/src/repositories/implementations/PostgreSQLAdRepository.ts:276 | GROUP BY platform yields groups distinct by platform holding exactly the distinct ads on that platform |
| Store.PlatformCountsExact | backend/src/repositories/implementations/PostgreSQLAdRepository.ts:271-272 | each reported count is the number of distinct ads on that platform, at least one |
| Store.PlatformCountsComplete | backend/src/repositories/implementations/PostgreSQLAdRepository.ts:273-276 | a platform is reported iff some joined ad is on it |
| Store.PlatformCountsOrdered | backend/src/repositories/implementations/PostgreSQLAdRepository.ts:276-277 | no platform is reported twice, and counts come in non-increasing order |
| AdRepository.DemandsOfBuilt | backend/src/repositories/implementations/PostgreSQLAdRepository.ts:35-57 | a WHERE list with one condition per truthy filter demands exactly that every truthy filter holds |
| AdRepository.WhereMeaning | backend/src/repositories/implementations/PostgreSQLAdRepository.ts:31-57 | a numbered WHERE list bound to the filter values holds exactly when every condition's filter holds |
| AdRepository.PushStep | backend/src/repositories/implementations/PostgreSQLAdRepository.ts:35-39 | a truthy filter appends its condition at placeholder `$paramIndex` and its value, then advances the counter |
| AdRepository.SkipStep | backend/src/repositories/implementations/PostgreSQLAdRepository.ts:35-57 | a falsy filter leaves conditions, values and counter unchanged |
| AdRepository.FindAllWhere | backend/src/repositories/implementations/PostgreSQLAdRepository.ts:31-57 | status, startDate, endDate, pageName conditions in that order, one per truthy filter, `$k` bound to the k-th value, pageName bound as `%value%` |
| AdRepository.PushIfGiven | backend/src/repositories/implementations/PostgreSQLAdRepository.ts:35-57 | a truthy filter appends its condition on the current placeholder and its bound value and steps the counter; a falsy one changes nothing; the builder invariant Built advances one filter |
| AdRepository.FindAllQueries | backend/src/repositories/implementations/PostgreSQLAdRepository.ts:59-102 | the count statement has CountShape; the page statement repeats it and binds LIMIT and OFFSET to the next two placeholders |
| AdRepository.PlatformJoinFor | backend/src/repositories/implementations/PostgreSQLAdRepository.ts:66-70 | a truthy platform adds the join on the next placeholder bound to the platform; otherwise no join and nothing changes |
| AdRepository.BuiltCountShape | backend/src/repositories/implementations/PostgreSQLAdRepository.ts:59-70 | the built WHERE list followed by the platform block has the count statement's shape |
| AdRepository.CountShapeBinds | backend/src/repositories/implementations/PostgreSQLAdRepository.ts:73-102 | a statement of that shape, and its page variant with LIMIT and OFFSET appended, bind every placeholder to a parameter of the right kind and use every parameter |
| AdRepository.CountShapeSelects | backend/src/repositories/implementations/PostgreSQLAdRepository.ts:73-79 | a statement of that shape selects exactly the ads meeting every truthy filter, the platform one through the join |
| AdRepository.CountStatementRuns | backend/src/repositories/implementations/PostgreSQLAdRepository.ts:73-80 | the count statement returns the number of matching ads, or fails with the enum error when the status filter is outside ACTIVE/INACTIVE |
| AdRepository.PageStatementRuns | backend/src/repositories/implementations/PostgreSQLAdRepository.ts:92-104 | the page statement returns the LIMIT/OFFSET window of the matching ads newest first; it fails with the enum error when the status filter is outside ACTIVE/INACTIVE, else with a range error when LIMIT or OFFSET is outside bigint, else with a negative-value error when one is negative |
| AdRepository.StatusParamsOfBuilt | backend/src/repositories/implementations/PostgreSQLAdRepository.ts:35-39 | a built statement's status values are all in the enum iff the status filter is |
| AdRepository.BuiltWellBound | backend/src/repositories/implementations/PostgreSQLAdRepository.ts:92-101 | a statement numbered from 1 with its join and extra placeholders following has every placeholder bound to a value of its kind |
| AdRepository.FindAllDemands | backend/src/repositories/implementations/PostgreSQLAdRepository.ts:66-77 | with the platform join, findAll's statement selects exactly the ads meeting all five filters |
| AdRepository.CountWhere | backend/src/repositories/implementations/PostgreSQLAdRepository.ts:181-201 | count()'s status, startDate, endDate conditions, one per truthy filter, in order |
| AdRepository.CountQueryFor | backend/src/repositories/implementations/PostgreSQLAdRepository.ts:180-205 | count()'s statement has no join and selects exactly the ads meeting status and date filters, ignoring platform and pageName; its status value is in the enum iff the status filter is |
| AdRepository.AdsByDateQueryFor | backend/src/repositories/implementations/PostgreSQLAdRepository.ts:213-225 | getAdsByDate's statement reads only the platform filter and selects exactly the ads on that platform |
| AdRepository.PlatformStatsQueryFor | backend/src/repositories/implementations/PostgreSQLAdRepository.ts:257-267 | getPlatformStats's statement reads only the status filter and selects exactly the ads with that status; its status value is in the enum iff the status filter is |
| AdRepository.WithAssetTypeOrNull | backend/src/repositories/implementations/PostgreSQLAdRepository.ts:299-302 | a version is returned unchanged except that a falsy asset_type becomes null |
| AdRepository.VersionsByAdIdOrdered | backend/src/repositories/implementations/PostgreSQLAdRepository.ts:288-303 | an ad's versions come one per version row of the ad, in ascending version number |
| AdRepository.VersionsByAdIdRows | backend/src/repositories/implementations/PostgreSQLAdRepository.ts:288-303 | they are exactly the ad's version rows, with a falsy asset_type as null |
| AdRepository.FindById | backend/src/repositories/implementations/PostgreSQLAdRepository.ts:132-154 | null iff no ad has the id; otherwise that ad with its own versions and platforms |
| AdRepository.FindByAdId | backend/src/repositories/implementations/PostgreSQLAdRepository.ts:156-178 | null iff no ad has the ad_id; otherwise that ad with its own versions and platforms |
| AdRepository.CeilDiv | backend/src/repositories/implementations/PostgreSQLAdRepository.ts:128 | `Math.ceil(n / d)`: the least r with n <= r * d |
| AdRepository.FindAll | backend/src/repositories/implementations/PostgreSQLAdRepository.ts:22-130 | the count statement, the page statement and each ad's relations give FindAllSpec, including its enum and LIMIT/OFFSET failures |
| AdRepository.FindAllOutcome | backend/src/repositories/implementations/PostgreSQLAdRepository.ts:26-28 | findAll fails iff the status filter is outside the enum or the defaulted limit or the offset is negative or above the bigint maximum, the enum error first, then the range error; otherwise page and limit are echoed with 1 and 50 for 0, total is the number of matching ads and totalPages its ceiling over limit |
| AdRepository.FindAllPageMembers | backend/src/repositories/implementations/PostgreSQLAdRepository.ts:92-121 | a page holds at most `limit` ads, each a stored ad meeting the filters with its own relations |
| AdRepository.FindAllPageOrder | backend/src/repositories/implementations/PostgreSQLAdRepository.ts:100 | a page lists its ads newest first |
| AdRepository.FindAllPageIsWindow | backend/src/repositories/implementations/PostgreSQLAdRepository.ts:26-28 | for page >= 1 and limit > 0, findAll succeeds iff the status filter is in the enum and limit and (page - 1) * limit fit in bigint, and then the page is the page-th window of `limit` matching ads, newest first |
| AdRepository.PagesUpToPrefix | backend/src/repositories/implementations/PostgreSQLAdRepository.ts:28 | pages 1..n together are the first n*limit ads, or all of them once past the end |
| AdRepository.PagesPartition | backend/src/repositories/implementations/PostgreSQLAdRepository.ts:128 | paging one fixed order with a positive limit through pages 1..totalPages yields every item once, in order |
| AdRepository.PageAfterLastIsEmpty | backend/src/repositories/implementations/PostgreSQLAdRepository.ts:128 | a page after totalPages is empty |
| AdRepository.SameOrderPages | backend/src/repositories/implementations/PostgreSQLAdRepository.ts:100-101 | page statements that all return one order page through that order |
| AdRepository.TiedPagesSkipAnAd | backend/src/repositories/implementations/PostgreSQLAdRepository.ts:100-101 | two ads with the same created_at and limit 1: pages 1 and 2 may both list one of them and never the other |
| AdRepository.DistinctCreatedPagesPartition | backend/src/repositories/implementations/PostgreSQLAdRepository.ts:100-101 | with distinct created_at values, pages 1..totalPages of separate statements are the matching ads newest first, whatever tie order each picks |
| AdRepository.TieBrokenPagesPartition | backend/src/repositories/implementations/PostgreSQLAdRepository.ts:100-101 | with ties broken by id, pages 1..totalPages of separate statements list every matching ad exactly once, in the tie-broken order |
| AdRepository.Count | backend/src/repositories/implementations/PostgreSQLAdRepository.ts:180-208 | count() returns the number of ads meeting status and date filters; a status filter outside the ACTIVE/INACTIVE enum makes it fail with the enum error |
| AdRepository.GetAdsByDate | backend/src/repositories/implementations/PostgreSQLAdRepository.ts:210-252 | getAdsByDate returns the by-date buckets of the ads on the platform |
| AdRepository.GetPlatformStats | backend/src/repositories/implementations/PostgreSQLAdRepository.ts:254-286 | getPlatformStats returns the per-platform counts over the ads with the status; a status filter outside the ACTIVE/INACTIVE enum makes it fail with the enum error |
| AdRepository.PlatformStatsSpec | backend/src/repositories/implementations/PostgreSQLAdRepository.ts:254-286 | each reported platform has as count the number of distinct ads with the status on it, at least one; a platform is reported iff such an ad exists; no platform twice; counts non-increasing |
| AdRepository.AdsByDateSpec | backend/src/repositories/implementations/PostgreSQLAdRepository.ts:210-252 | days strictly ascending; each day's row is the reference count of ads on the platform starting that day, split by status; counts sum to the number of such ads |
| AdRepository.CountMatching | backend/src/repositories/implementations/PostgreSQLAdRepository.ts:73-80 | findAll's own count statement counts exactly the ads meeting all five filters; a status filter outside the ACTIVE/INACTIVE enum makes it fail with the enum error |
| AdService.GetAds | backend/src/services/AdService.ts:18-23 | returns findAll's result unchanged |
| AdService.GetAdById | backend/src/services/AdService.ts:25-27 | null iff no ad has the id, otherwise that ad with its relations |
| AdService.GetAdByAdId | backend/src/services/AdService.ts:29-31 | null iff no ad has the ad_id, otherwise that ad with its relations |
| AdService.GetAdsCount | backend/src/services/AdService.ts:33-35 | returns count()'s result, its enum failure included |
| AdService.GetAdsByDate | backend/src/services/AdService.ts:37-41 | returns getAdsByDate's result |
| AdService.GetPlatformStats | backend/src/services/AdService.ts:43-47 | returns getPlatformStats's result, its enum failure included |
| AdService.GetStats | backend/src/services/AdService.ts:49-65 | fails with the enum error iff the caller's status is outside ACTIVE/INACTIVE; otherwise total, active and inactive are count() with the caller's filters and with status replaced by ACTIVE and INACTIVE, byDate and byPlatform the two reads with the caller's filters |
| AdService.SubCountIgnoresCallerStatus | backend/src/services/AdService.ts:52-53 | a sub-count counts the ads with its own status in the caller's date range, whatever status the caller gave |
| AdService.SubCountsSplitTotal | backend/src/services/AdService.ts:50-53 | without a caller status, active + inactive <= total, with equality when every ad is ACTIVE or INACTIVE |
| AdService.StatsTotalIgnoresPlatform | backend/src/services/AdService.ts:50-51 | one stored ad with no platform rows, filtered by platform "facebook": count() reports 1 while findAll's total is 0 |
| AdService.GetStatsConsistent | backend/src/services/AdService.ts:49-65 | fails with the enum error iff the caller's status is outside the enum; otherwise StatsConsistentOf: the five reads, with the three counts taken as findAll's totals |
| AdService.ConsistentTotalIsListTotal | backend/src/services/AdService.ts:49-65 | the corrected statistics total equals findAll's total, and each sub-count equals findAll's total with that status |
| AdService.ConsistentSubCountsSplitTotal | backend/src/services/AdService.ts:49-65 | without a caller status, the corrected active and inactive counts are at most the total, and sum to it when every ad is ACTIVE or INACTIVE |
| PyJson.Lookup | scraper/src/database/import_ads.py:54 | a missing key is None; a present key yields a value bound to it |
| PyJson.Get | scraper/src/graphql_parser.py:158-162 | `.get` fails with AttributeError exactly on a non-dict |
| PyJson.GetOr | scraper/src/graphql_parser.py:39 | the value `.get` returns on a dict |
| PyJson.Subscript | scraper/src/database/import_ads.py:54 | `v[k]` succeeds exactly on a dict holding k |
| PyJson.First | scraper/src/graphql_parser.py:42 | `cards[0]` is the first item of a non-empty list; it succeeds only on lists and strings |
| PyJson.Keys | scraper/src/graphql_parser.py:118 | iterating a dict visits each key once, every key |
| PyJson.Iter | scraper/src/graphql_parser.py:118 | iteration fails exactly on None, booleans and integers; a list yields its items, a dict string keys, a string one-character strings |
| PyJson.IterEmptyIffFalsy | scraper/src/graphql_parser.py:107-108 | a list, dict or string iterates to nothing iff it is falsy |
| PyJson.NatDigits | scraper/src/graphql_parser.py:124 | `str()` of a natural number is a non-empty run of decimal digits |
| PyJson.NatDigitsValue | scraper/src/graphql_parser.py:124 | reading those digits back gives the number |
| GraphqlParser.ParsePlatformItemsSpec | scraper/src/graphql_parser.py:19-28 | parse_platforms succeeds iff every truthy entry is a string; it then maps the truthy codes, in order, to display names |
| GraphqlParser.DisplayNameSpec | scraper/src/graphql_parser.py:21-28 | the five codes map to their names whatever their case; any other code is kept as given |
| GraphqlParser.FirstTruthyKey | scraper/src/graphql_parser.py:71-82 | the first key whose value is truthy, all earlier ones being falsy; None iff all are falsy |
| GraphqlParser.CardAssetsPriority | scraper/src/graphql_parser.py:71-82 | exactly one asset is kept, the first truthy of HD video, SD video, resized image, original image; a video fills only video_url, an image only image_url |
| GraphqlParser.CardAssetsExclusive | scraper/src/graphql_parser.py:71-89 | at most one URL is set, and asset_type is video, image or None exactly as video_url, image_url or neither is set |
| GraphqlParser.ParseCardFields | scraper/src/graphql_parser.py:64-95 | parse_card fails iff the card is not a dict; ad_copy is body or "" when absent; the text fields are copied or None; the assets are the card's |
| GraphqlParser.ExtractAdAssets | scraper/src/graphql_parser.py:31-61 | AttributeError for a non-dict snapshot; all-None assets for falsy cards; otherwise the first card's assets by the same priority as parse_card, failing iff the first card is not a dict |
| GraphqlParser.ParseAllCards | scraper/src/graphql_parser.py:117-120 | the card loop yields one version per card in order, or the first card's error, as ParseCards states |
| GraphqlParser.ParseCollatedResult | scraper/src/graphql_parser.py:98-139 | builds the ad Collated describes, None on every path that raises or lacks an id or cards |
| GraphqlParser.CollatedWhen | scraper/src/graphql_parser.py:100-139 | an ad is returned iff the result is a dict with a truthy ad_archive_id, a dict snapshot with truthy iterable cards all of them dicts, and parsable platforms |
| GraphqlParser.CollatedFields | scraper/src/graphql_parser.py:117-133 | one version per card in card order, each the card parsed alone; version_count is their number; ad_id is `str(ad_archive_id)`; status is "active" iff is_active is truthy, "inactive" otherwise |
| GraphqlParser.AdIdsOf | scraper/src/graphql_parser.py:154 | the ids of a list of ads |
| GraphqlParser.Capped | scraper/src/graphql_parser.py:179-180 | at most Cap(max_ads) ads, and no more than offered |
| GraphqlParser.FirstOccurrencesPrefix | scraper/src/graphql_parser.py:171-177 | deduplicating more candidates extends the earlier result |
| GraphqlParser.CapReached | scraper/src/graphql_parser.py:179-180 | once the cap is reached, later candidates change nothing |
| GraphqlParser.Offer | scraper/src/graphql_parser.py:171-180 | a met ad is kept iff its id is new; reaching the cap ends with exactly Cap(max_ads) first occurrences |
| GraphqlParser.CollectResults | scraper/src/graphql_parser.py:168-180 | the inner loop keeps the first occurrence of each id among the results' ads, up to the cap |
| GraphqlParser.CollectEdges | scraper/src/graphql_parser.py:164-180 | the edge loop does the same over the edges, up to the first edge that raises |
| GraphqlParser.EdgeStep | scraper/src/graphql_parser.py:164-166 | an edge that raises ends the response; otherwise its results' ads come first |
| GraphqlParser.ParseGraphqlResponses | scraper/src/graphql_parser.py:142-186 | returns the first occurrence of each id among all ads met, in encounter order, capped at Cap(max_ads) |
| GraphqlParser.ResponseStep | scraper/src/graphql_parser.py:156-184 | a response that raises before its edges contributes nothing; otherwise its edges' ads come next |
| GraphqlParser.FirstOccurrencesDistinct | scraper/src/graphql_parser.py:174-177 | no two returned ads share an id |
| GraphqlParser.FirstIndex | scraper/src/graphql_parser.py:174-177 | the index of the first candidate with the id, every earlier candidate having another id |
| GraphqlParser.FirstOccurrencesIds | scraper/src/graphql_parser.py:174-177 | every candidate id is returned |
| GraphqlParser.FirstOccurrencesFirst | scraper/src/graphql_parser.py:174-177 | each returned ad is the first candidate met with its id |
| GraphqlParser.FirstOccurrencesOrdered | scraper/src/graphql_parser.py:174-177 | returned ads are ordered by where their id was first met |
| GraphqlParser.ParseResponsesMonotone | scraper/src/graphql_parser.py:156-186 | more responses never lose or reorder ads already returned |
| GraphqlParser.FailingResponseIsSkipped | scraper/src/graphql_parser.py:182-184 | a response raising before its edges leaves the result as if absent |
| Dates.MonthField | scraper/src/database/import_ads.py:24 | `%m` accepts one or two digits 1..12 followed by `-` |
| Dates.DayField | scraper/src/database/import_ads.py:24 | `%d` accepts 1..31 in one or two characters and must end the string |
| Dates.StrpDate | scraper/src/database/import_ads.py:24 | a parsed date is a valid calendar date of years 1..9999, from 8 to 10 characters with `-` after the year |
| Dates.FormatDate | scraper/src/database/import_ads.py:24 | a date written YYYY-MM-DD is 10 characters |
| Dates.StrpFormatted | scraper/src/database/import_ads.py:24 | every valid date written YYYY-MM-DD parses back to itself |
| ImportAds.ParseDate | scraper/src/database/import_ads.py:19-26 | a date only from a string strptime accepts; every non-empty string gives strptime's result; falsy values, non-strings and rejected strings give None |
| ImportAds.AssetTypeOf | scraper/src/database/import_ads.py:97-102 | IMAGE iff asset_type is "image", VIDEO iff it is "video", None otherwise |
| ImportAds.FindAd | scraper/src/database/import_ads.py:54 | the index of a row with the ad_id, None iff no row has it |
| ImportAds.FindAdFirst | scraper/src/database/import_ads.py:54 | `.first()` finds the earliest row with the ad_id |
| ImportAds.VersionRowsOf | scraper/src/database/import_ads.py:95-118 | one version row per entry version, numbered from 1 in input order |
| ImportAds.PlatformRowsOf | scraper/src/database/import_ads.py:86-92 | one platform row per listed platform, in order, duplicates kept |
| ImportAds.Where | scraper/src/database/import_ads.py:66-67 | the rows with (or without) the key, and no others |
| ImportAds.WhereAppend | scraper/src/database/import_ads.py:66-67 | filtering distributes over concatenation |
| ImportAds.WhereAfterDelete | scraper/src/database/import_ads.py:66-67 | after deleting a key's rows, none of that key remain and other keys keep theirs |
| ImportAds.WhereUniform | scraper/src/database/import_ads.py:86-118 | rows all carrying one key are exactly that key's rows |
| ImportAds.WhereFresh | scraper/src/database/import_ads.py:82 | no row refers to a key not yet handed out |
| ImportAds.RelationsSpec | scraper/src/database/import_ads.py:85-120 | the relation loops and commit keep the counter; a commit appends exactly the entry's version and platform rows to the rows in place; a failure reports the counter already bumped |
| ImportAds.CommittedEntry | scraper/src/database/import_ads.py:51-120 | a committed entry updates the existing ad in place or appends a new one under the next key; the ad's versions and platforms are exactly those of the entry; other ads' rows are untouched |
| ImportAds.StepReport | scraper/src/database/import_ads.py:51-130 | imported_count grows iff a new ad was flushed, updated_count iff an existing ad was matched, error_count iff the entry was rolled back; a rolled-back entry leaves the tables as they were; the key counter never decreases |
| ImportAds.TryEntryCommittedReached | scraper/src/database/import_ads.py:54-62 | only an entry whose ad_id and columns were read can commit |
| ImportAds.UpsertKeyed | scraper/src/database/import_ads.py:56-83 | the upsert keeps ad_id and the primary key unique |
| ImportAds.RelationsConsistent | scraper/src/database/import_ads.py:85-120 | relation rows added under a handed-out key keep the tables consistent |
| ImportAds.WithoutRelationsReferenced | scraper/src/database/import_ads.py:66-67 | the bulk deletes keep only rows already referring to handed-out keys |
| ImportAds.TryEntryKeepsConsistent | scraper/src/database/import_ads.py:51-120 | every committed entry leaves the tables consistent (NOT NULL and bindable columns, unique ad_id and key, relations referring to handed-out keys) |
| ImportAds.RunKeepsConsistent | scraper/src/database/import_ads.py:51-130 | consistency holds after any number of entries |
| ImportAds.StepCounts | scraper/src/database/import_ads.py:70-130 | one entry adds one or two to the three counters together, at most one error |
| ImportAds.RunCounts | scraper/src/database/import_ads.py:51-136 | with a handler that cannot raise, every entry is counted: the counters grow by at least the number of entries and at most twice it |
| ImportAds.NonDictStep | scraper/src/database/import_ads.py:54-130 | an entry that is not a dict is rolled back and counted as an error |
| ImportAds.RunFromAllDicts | scraper/src/database/import_ads.py:51-136 | when every entry is a dict the loop as written reaches the summary with the corrected loop's tables and counters |
| ImportAds.NonDictEntryAborts | scraper/src/database/import_ads.py:127-130 | the loop as written stops at the first entry that is not a dict, keeping what earlier entries committed and reporting nothing |
| ImportAds.NonDictFileAborts | scraper/src/database/import_ads.py:127-130 | the file {"ads": ["x", {}]} aborts as written, and is counted as two errors by the corrected loop |
| ImportAds.ConsistentLater | scraper/src/database/import_ads.py:82 | handing out more keys keeps consistent tables consistent |
| ImportAds.AdDatabase.constructor | scraper/src/database/connection.py:19 | a session over consistent committed tables, nothing pending |
| ImportAds.AdDatabase.FindAdIndex | scraper/src/database/import_ads.py:54 | the scan returns FindAd's row |
| ImportAds.AdDatabase.UpdateAd | scraper/src/database/import_ads.py:58-62 | only the matched row's columns change |
| ImportAds.AdDatabase.DeleteRelations | scraper/src/database/import_ads.py:66-67 | the ad's version and platform rows are removed at once, others kept |
| ImportAds.AdDatabase.InsertAndFlush | scraper/src/database/import_ads.py:73-82 | the new row takes the next key and is appended; the flush succeeds iff its NOT NULL and bindable columns are met |
| ImportAds.AdDatabase.AddPlatform | scraper/src/database/import_ads.py:88-92 | one platform row appended |
| ImportAds.AdDatabase.AddVersion | scraper/src/database/import_ads.py:104-118 | one version row appended |
| ImportAds.AdDatabase.Commit | scraper/src/database/import_ads.py:120 | writes the session's rows iff all meet their constraints; otherwise the committed tables stay |
| ImportAds.AdDatabase.Rollback | scraper/src/database/import_ads.py:124 | the session returns to the committed tables; the key counter stays |
| ImportAds.AdDatabase.AddPlatforms | scraper/src/database/import_ads.py:86-92 | appends exactly PlatformRowsOf the listed platforms |
| ImportAds.AdDatabase.AddVersions | scraper/src/database/import_ads.py:95-118 | succeeds iff every version is a dict, then appends exactly VersionRowsOf the versions |
| ImportAds.AdDatabase.AddRelations | scraper/src/database/import_ads.py:85-120 | the two loops and the commit end as Relations describes |
| ImportAds.AdDatabase.TryImport | scraper/src/database/import_ads.py:52-120 | the try body ends as TryEntry describes, with the key counter it reaches; committed tables change only on a commit |
| ImportAds.AdDatabase.ImportEntry | scraper/src/database/import_ads.py:52-130 | one iteration moves the session and counters as Step describes, keeps the session consistent, and crashes exactly on a non-dict entry |
| ImportAds.AdDatabase.ImportAdsFromJson | scraper/src/database/import_ads.py:41-136 | the whole import ends as ImportRun describes: the summary counters, or an abort with what was committed; the session stays consistent |

## Left out

- Parallelism: `Promise.all` in findAll, findById, findByAdId and getStats is modelled as the same reads one after the other. The reads do not write, so the results are equal.
- Driver and network: connection handling, the SQL text itself, driver errors other than a status value outside the `adstatus` enum, a negative or out-of-bigint LIMIT/OFFSET and a bad binding, and `parseInt` of driver strings are left out. Counts are naturals.
- Collation and DATE(): ORDER BY on text uses code-point order, with ties kept in storage order, which is one of the orders the engine may return. Dates are day numbers, so `DATE(start_date)` and `toISOString().split("T")[0]` are the identity on them.
- Case folding: ILIKE and `.upper()` fold ASCII letters only.
- parse_timestamp: kept abstract. A truthy timestamp becomes an opaque value of the raw input: the local date when the clock library accepts it as an instant, otherwise its own text, because every exception is caught. The time zone and the library's range are outside the model. A falsy one becomes None.
- Numbers: JSON floats, and `str()` of floats, are not modelled.
- Repr: `repr` of nested values is simplified (no escaping of quotes in strings).
- Messages: `print` calls and error messages are left out. parse_graphql_file and the file load (`json.load`) are left out. The importer starts from the decoded `data`, and the parser from the list of responses.
- init_db: table creation is left out.
- Timestamps: `created_at`/`updated_at` clock values written by the importer are left out. Their values come from the clock.
- Keys: uuid4 primary keys are modelled as a counter of naturals that a rollback does not reset. Only their uniqueness matters.
- Column types: string length limits, and the driver's adaptation of integers and booleans to text columns, are left out. A cell holds the decoded JSON value. A list or dict value is a binding failure. NOT NULL is enforced on ad_id, start_date, page_name and platform.
- Foreign keys: only preserved as an invariant (every relation row refers to a key already handed out), not checked by the session.
- Exceptions: the exception class raised by the importer's try body is left out. Both handlers do the same rollback and count.
- AdRepository.PagesPartition: holds for the pages of one fixed order. FindAllSpec resolves ties on `created_at` in storage order (`NewestFirst`), which is only one of the orders the engine may return, and each page statement may pick another. For separate statements, the partition holds only when created_at values are distinct (`DistinctCreatedPagesPartition`); `TiedPagesSkipAnAd` shows the tie case.
- AdRepository.FindAllOutcome: page, limit and the offset `(page - 1) * limit` are exact integers. The source computes them as JavaScript numbers, which round above 2^53, so close to the bigint bound the rounded offset can land on the other side of it.
- AdRepository.GetPlatformStats: `ORDER BY count DESC` leaves platforms with equal counts in an order the engine chooses. The model keeps them in group order (`Store.PlatformCounts` sorts stably), one of the allowed orders, so the ensures pins a sequence the source does not. PlatformStatsSpec states only what every allowed order shares: each count, completeness, distinct platforms and non-increasing counts. Ties of `version_number` in VersionsQuery are kept the same way.
- Dates.StrpDate: accepts ASCII digits only. The `\d` in strptime's `%Y` pattern, and `int()`, also accept other Unicode decimal digits, so a year written in, say, Arabic-Indic digits parses in Python but gives None here.
- Dates.DayField: the `[12]\d` alternative accepts an ASCII second digit only, for the same reason.
- GraphqlParser.DisplayNameSpec: does not state that mapping twice equals mapping once. That property depends on case mapping of the display names themselves.

## Findings

| source | as written | input that shows it | evidently intended | confidence | as-written member | corrected member |
|---|---|---|---|---|---|---|
| backend/src/repositories/implementations/PostgreSQLAdRepository.ts:53-56 | the page-name value is bound as `%value%` without escaping, so `%`, `_` and backslash in it act as wildcards | pageName `_` against the page name "Acme" | a case-insensitive substring filter | not executed; high | Like.UnderscoreValueMatchesAnyName | Like.EscapedPageNamePatternIsContains |
| backend/src/services/AdService.ts:50-53 | getStats counts with count(), which ignores the platform and pageName filters that findAll honours, so the statistics total differs from the list's total | one ad with no platform rows, filter platform "facebook" | statistics over the same ads the list shows | not executed; medium | AdService.StatsTotalIgnoresPlatform | AdService.ConsistentTotalIsListTotal |
| backend/src/repositories/implementations/PostgreSQLAdRepository.ts:100-101 | the page statement orders by `created_at` alone, so ads created at the same instant may come back in a different order for each page, and paging can repeat one ad and skip another | two matching ads with the same created_at, limit 1, pages 1 and 2 | every matching ad on exactly one page | not executed; medium | AdRepository.TiedPagesSkipAnAd | AdRepository.TieBrokenPagesPartition |
| scraper/src/database/import_ads.py:127-130 | for an entry that is not a dict, the handler's own `ad_data.get` raises AttributeError after the rollback, ending the whole import without a summary and skipping every later entry | `{"ads": ["x", {}]}` | count the entry as an error and go on | not executed; high | ImportAds.NonDictFileAborts | ImportAds.RunCounts |

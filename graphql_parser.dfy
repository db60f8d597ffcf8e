/**
 * The scraper's decoder for Facebook Ads Library GraphQL responses: from
 * nested JSON to flat ad records, one record per collated result, each with
 * one version per card, deduplicated by ad id and capped in number.
 *
 * Every Python operation that can raise (`.get` on a non-dict, iterating a
 * number, `.upper()` on a non-string) is modelled; `parse_collated_result`
 * turns any such failure into "no ad", and `parse_graphql_responses` skips
 * the rest of a response that raises, keeping what it already collected.
 */
module GraphqlParser {
  import opened Wrappers
  import opened Text
  import opened PyJson

  /** The status strings the scraper writes (lower case). */
  const STATUS_ACTIVE := "active"
  const STATUS_INACTIVE := "inactive"

  const VIDEO := "video"
  const IMAGE := "image"

  // ---------------------------------------------------------------------
  // parse_platforms

  /** Platform codes and their display names. */
  const PlatformMap: map<string, string> := map[
    "FACEBOOK" := "Facebook",
    "INSTAGRAM" := "Instagram",
    "MESSENGER" := "Messenger",
    "WHATSAPP" := "WhatsApp",
    "AUDIENCE_NETWORK" := "Audience Network"]

  /** `platform_map.get(p.upper(), p)`. */
  function DisplayName(p: string): string
  {
    if Upper(p) in PlatformMap then PlatformMap[Upper(p)] else p
  }

  /** The list comprehension over already iterated platform entries: falsy
      entries are dropped, a truthy non-string has no `upper` and raises. */
  function ParsePlatformItems(items: seq<Json>): (r: Result<seq<string>, PyError>)
  {
    if items == [] then Success([])
    else if !Truthy(items[0]) then ParsePlatformItems(items[1..])
    else if !items[0].Str? then Failure(AttributeError)
    else
      match ParsePlatformItems(items[1..])
      case Failure(e) => Failure(e)
      case Success(rest) => Success([DisplayName(items[0].s)] + rest)
  }

  /** `parse_platforms(platforms)`. */
  function ParsePlatforms(platforms: Json): Result<seq<string>, PyError>
  {
    var items :- Iter(platforms);
    ParsePlatformItems(items)
  }

  /** The codes the comprehension keeps: the truthy entries, in order. */
  function KeptCodes(items: seq<Json>): (r: seq<string>)
  {
    if items == [] then []
    else if Truthy(items[0]) && items[0].Str? then [items[0].s] + KeptCodes(items[1..])
    else KeptCodes(items[1..])
  }

  /** parse_platforms succeeds exactly when every truthy entry is a string;
      then it maps the non-empty codes, in order, to their display names. */
  lemma {:induction false} ParsePlatformItemsSpec(items: seq<Json>)
    ensures ParsePlatformItems(items).Success? <==>
              forall i :: 0 <= i < |items| && Truthy(items[i]) ==> items[i].Str?
    ensures ParsePlatformItems(items).Success? ==>
              var codes := KeptCodes(items);
              && |ParsePlatformItems(items).value| == |codes|
              && forall i :: 0 <= i < |codes| ==> ParsePlatformItems(items).value[i] == DisplayName(codes[i])
  {
    if items != [] {
      ParsePlatformItemsSpec(items[1..]);
      assert forall i :: 1 <= i < |items| ==> items[i] == items[1..][i - 1];
    }
  }

  /** A known code is recognised whatever its case; any other string is
      passed through unchanged. */
  lemma DisplayNameSpec(p: string)
    ensures Upper(p) == "FACEBOOK" ==> DisplayName(p) == "Facebook"
    ensures Upper(p) == "INSTAGRAM" ==> DisplayName(p) == "Instagram"
    ensures Upper(p) == "MESSENGER" ==> DisplayName(p) == "Messenger"
    ensures Upper(p) == "WHATSAPP" ==> DisplayName(p) == "WhatsApp"
    ensures Upper(p) == "AUDIENCE_NETWORK" ==> DisplayName(p) == "Audience Network"
    ensures Upper(p) !in PlatformMap ==> DisplayName(p) == p
    ensures DisplayName(p) == p || DisplayName(p) in PlatformMap.Values
  {
  }

  // ---------------------------------------------------------------------
  // parse_card

  /** The asset fields of a version. */
  datatype Assets = Assets(imageUrl: Json, videoUrl: Json, assetType: Option<string>)

  /** One ad version as parse_card returns it; `Null` is Python's None. */
  datatype CardVersion = CardVersion(
    adCopy: Json,
    title: Json,
    imageUrl: Json,
    videoUrl: Json,
    assetType: Option<string>,
    linkUrl: Json,
    linkDescription: Json,
    ctaText: Json,
    ctaType: Json,
    caption: Json)

  const NoAssets := Assets(Null, Null, None)

  /** The asset keys in the order parse_card tries them. */
  const AssetKeys: seq<string> := ["video_hd_url", "video_sd_url", "resized_image_url", "original_image_url"]

  /** The if-chain of parse_card over a dict: the first truthy URL among the
      four, a video for the first two keys and an image for the others. */
  function CardAssets(card: Json): Assets
  {
    if Truthy(Field(card, "video_hd_url")) then Assets(Null, Field(card, "video_hd_url"), Some(VIDEO))
    else if Truthy(Field(card, "video_sd_url")) then Assets(Null, Field(card, "video_sd_url"), Some(VIDEO))
    else if Truthy(Field(card, "resized_image_url")) then Assets(Field(card, "resized_image_url"), Null, Some(IMAGE))
    else if Truthy(Field(card, "original_image_url")) then Assets(Field(card, "original_image_url"), Null, Some(IMAGE))
    else NoAssets
  }

  /** `parse_card(card)`: only a dict has `get`. */
  function ParseCard(card: Json): Result<CardVersion, PyError>
  {
    if !card.Obj? then Failure(AttributeError)
    else
      var a := CardAssets(card);
      Success(CardVersion(
        GetOr(card, "body", Str("")),
        Field(card, "title"),
        a.imageUrl,
        a.videoUrl,
        a.assetType,
        Field(card, "link_url"),
        Field(card, "link_description"),
        Field(card, "cta_text"),
        Field(card, "cta_type"),
        Field(card, "caption")))
  }

  /** Index of the first key whose value in `card` is truthy, if any. */
  function FirstTruthyKey(card: Json, keys: seq<string>): (r: Option<nat>)
    ensures r.Some? ==> r.value < |keys| && Truthy(Field(card, keys[r.value]))
    ensures r.Some? ==> forall j :: 0 <= j < r.value ==> !Truthy(Field(card, keys[j]))
    ensures r.None? ==> forall j :: 0 <= j < |keys| ==> !Truthy(Field(card, keys[j]))
  {
    if keys == [] then None
    else if Truthy(Field(card, keys[0])) then Some(0)
    else
      match FirstTruthyKey(card, keys[1..])
      case None => None
      case Some(k) => Some(k + 1)
  }

  /** parse_card keeps exactly one asset, the first truthy one in priority
      order (HD video, SD video, resized image, original image): a video
      fills only video_url, an image only image_url, and asset_type names
      which one was filled, or is None when none was. */
  lemma CardAssetsPriority(card: Json)
    ensures var a := CardAssets(card);
            match FirstTruthyKey(card, AssetKeys)
            case None => a == NoAssets
            case Some(k) =>
              if k < 2 then a == Assets(Null, Field(card, AssetKeys[k]), Some(VIDEO))
              else a == Assets(Field(card, AssetKeys[k]), Null, Some(IMAGE))
  {
    var k := FirstTruthyKey(card, AssetKeys);
    var v0, v1, v2, v3 := Field(card, AssetKeys[0]), Field(card, AssetKeys[1]), Field(card, AssetKeys[2]), Field(card, AssetKeys[3]);
    assert v0 == Field(card, "video_hd_url") && v1 == Field(card, "video_sd_url");
    assert v2 == Field(card, "resized_image_url") && v3 == Field(card, "original_image_url");
    if k.None? {
      assert !Truthy(v0) && !Truthy(v1) && !Truthy(v2) && !Truthy(v3);
    } else if k.value == 1 {
      assert !Truthy(v0);
    } else if k.value == 2 {
      assert !Truthy(v0) && !Truthy(v1);
    } else if k.value == 3 {
      assert !Truthy(v0) && !Truthy(v1) && !Truthy(v2);
    }
  }

  /** At most one of the two URLs is set, and asset_type says which. */
  lemma CardAssetsExclusive(card: Json)
    ensures var a := CardAssets(card);
            && (a.imageUrl == Null || a.videoUrl == Null)
            && (a.assetType == Some(VIDEO) <==> a.videoUrl != Null)
            && (a.assetType == Some(IMAGE) <==> a.imageUrl != Null)
            && (a.assetType == None <==> a.imageUrl == Null && a.videoUrl == Null)
  {
  }

  /** parse_card fails only on a non-dict; otherwise ad_copy is the body, or
      "" when the key is missing, and the text fields are copied verbatim or
      None. */
  lemma ParseCardFields(card: Json)
    ensures ParseCard(card).Failure? <==> !card.Obj?
    ensures ParseCard(card).Success? ==>
              var v := ParseCard(card).value;
              && (Lookup(card.fields, "body").None? ==> v.adCopy == Str(""))
              && (Lookup(card.fields, "body").Some? ==> v.adCopy == Lookup(card.fields, "body").value)
              && v.title == Field(card, "title")
              && v.linkUrl == Field(card, "link_url")
              && v.linkDescription == Field(card, "link_description")
              && v.ctaText == Field(card, "cta_text")
              && v.ctaType == Field(card, "cta_type")
              && v.caption == Field(card, "caption")
              && Assets(v.imageUrl, v.videoUrl, v.assetType) == CardAssets(card)
  {
  }

  // ---------------------------------------------------------------------
  // extract_ad_assets

  /** `extract_ad_assets(snapshot)`: the assets of the first card, filled
      field by field into an all-None record. Videos are looked at first and
      images only when no video URL was found. */
  method ExtractAdAssets(snapshot: Json) returns (r: Result<Assets, PyError>)
    ensures !snapshot.Obj? ==> r == Failure(AttributeError)
    ensures snapshot.Obj? && !Truthy(GetOr(snapshot, "cards", EmptyArr)) ==> r == Success(NoAssets)
    ensures snapshot.Obj? && Truthy(GetOr(snapshot, "cards", EmptyArr)) ==>
              var cards := GetOr(snapshot, "cards", EmptyArr);
              (r.Success? <==> First(cards).Success? && First(cards).value.Obj?) &&
              (r.Success? ==> r.value == CardAssets(First(cards).value))
  {
    var assets := NoAssets;
    var cards :- Get(snapshot, "cards", EmptyArr);
    if Truthy(cards) {
      var firstCard :- First(cards);
      var hd :- Get(firstCard, "video_hd_url", Null);
      if Truthy(hd) {
        assets := assets.(videoUrl := Subscript(firstCard, "video_hd_url").value, assetType := Some(VIDEO));
      } else {
        var sd := GetOr(firstCard, "video_sd_url", Null);
        if Truthy(sd) {
          assets := assets.(videoUrl := Subscript(firstCard, "video_sd_url").value, assetType := Some(VIDEO));
        }
      }
      if !Truthy(assets.videoUrl) {
        var resized := GetOr(firstCard, "resized_image_url", Null);
        if Truthy(resized) {
          assets := assets.(imageUrl := Subscript(firstCard, "resized_image_url").value, assetType := Some(IMAGE));
        } else {
          var original := GetOr(firstCard, "original_image_url", Null);
          if Truthy(original) {
            assets := assets.(imageUrl := Subscript(firstCard, "original_image_url").value, assetType := Some(IMAGE));
          }
        }
      }
    }
    r := Success(assets);
  }

  // ---------------------------------------------------------------------
  // parse_collated_result

  /** `parse_timestamp` is kept abstract: a truthy timestamp becomes an
      opaque string determined by the raw input alone (its local calendar
      date when the clock library accepts it as an instant, otherwise its
      own text, since every failure is caught), a falsy one None. */
  datatype Timestamp = NoDate | RenderedFrom(raw: Json)

  function ParseTimestamp(ts: Json): Timestamp
  {
    if Truthy(ts) then RenderedFrom(ts) else NoDate
  }

  /** One ad as parse_collated_result returns it. */
  datatype ParsedAd = ParsedAd(
    adId: string,
    status: string,
    platforms: seq<string>,
    startDate: Timestamp,
    endDate: Timestamp,
    pageName: Json,
    pageProfileUri: Json,
    versions: seq<CardVersion>,
    versionCount: nat)

  /** parse_card over the cards in order; the first non-dict card raises. */
  function ParseCards(cards: seq<Json>): Result<seq<CardVersion>, PyError>
  {
    MapAll(cards, ParseCard)
  }

  /** What parse_collated_result returns for `result`: None when it has no
      truthy ad_archive_id or no cards, and None when anything on the way
      raises. */
  function Collated(result: Json): Option<ParsedAd>
  {
    if !result.Obj? then None
    else
      var adId := Field(result, "ad_archive_id");
      var snapshot := GetOr(result, "snapshot", EmptyObj);
      var cards := GetOr(snapshot, "cards", EmptyArr);
      if !Truthy(adId) || !snapshot.Obj? || !Truthy(cards) then None
      else
        match (Iter(cards), ParsePlatforms(GetOr(result, "publisher_platform", EmptyArr)))
        case (Success(items), Success(platforms)) =>
          (match ParseCards(items)
           case Success(versions) =>
             Some(ParsedAd(
               PyStr(adId),
               if Truthy(GetOr(result, "is_active", Bool(false))) then STATUS_ACTIVE else STATUS_INACTIVE,
               platforms,
               ParseTimestamp(Field(result, "start_date")),
               ParseTimestamp(Field(result, "end_date")),
               Field(snapshot, "page_name"),
               Field(snapshot, "page_profile_uri"),
               versions,
               |versions|))
           case Failure(_) => None)
        case _ => None
  }

  /** The `for card in cards` loop of parse_collated_result: one version per
      card, in order, stopping at the first card that raises. */
  method ParseAllCards(items: seq<Json>) returns (r: Result<seq<CardVersion>, PyError>)
    ensures r == ParseCards(items)
  {
    var versions: seq<CardVersion> := [];
    var k := 0;
    while k < |items|
      invariant 0 <= k <= |items|
      invariant ParseCards(items[..k]) == Success(versions)
    {
      var card := ParseCard(items[k]);
      assert items[..k + 1][..k] == items[..k];
      if card.Failure? {
        MapAllFailurePersists(items, k + 1, ParseCard);
        return Failure(card.error);
      }
      versions := versions + [card.value];
      k := k + 1;
    }
    assert items[..k] == items;
    return Success(versions);
  }

  /** `parse_collated_result(result)`: the versions come from the card loop. */
  method ParseCollatedResult(result: Json) returns (r: Option<ParsedAd>)
    ensures r == Collated(result)
  {
    if !result.Obj? {
      return None;
    }
    var adId := Field(result, "ad_archive_id");
    if !Truthy(adId) {
      return None;
    }
    var snapshot := GetOr(result, "snapshot", EmptyObj);
    if !snapshot.Obj? {
      return None;
    }
    var cards := GetOr(snapshot, "cards", EmptyArr);
    if !Truthy(cards) {
      return None;
    }
    var isActive := GetOr(result, "is_active", Bool(false));
    var startDateTs := Field(result, "start_date");
    var endDateTs := Field(result, "end_date");
    var publisherPlatforms := GetOr(result, "publisher_platform", EmptyArr);

    var iterated := Iter(cards);
    if iterated.Failure? {
      return None;
    }
    var parsed := ParseAllCards(iterated.value);
    if parsed.Failure? {
      return None;
    }
    var versions := parsed.value;

    var platforms := ParsePlatforms(publisherPlatforms);
    if platforms.Failure? {
      return None;
    }
    r := Some(ParsedAd(
      PyStr(adId),
      if Truthy(isActive) then STATUS_ACTIVE else STATUS_INACTIVE,
      platforms.value,
      ParseTimestamp(startDateTs),
      ParseTimestamp(endDateTs),
      Field(snapshot, "page_name"),
      Field(snapshot, "page_profile_uri"),
      versions,
      |versions|));
  }

  /** The cards of a collated result. */
  function CardsOf(result: Json): Json
  {
    GetOr(GetOr(result, "snapshot", EmptyObj), "cards", EmptyArr)
  }

  /** A parsed ad exists exactly when the result is a dict with a truthy
      ad_archive_id and a dict snapshot holding a truthy, iterable cards value
      whose entries are all dicts, and its platforms parse. */
  lemma CollatedWhen(result: Json)
    ensures Collated(result).Some? <==>
              && result.Obj?
              && Truthy(Field(result, "ad_archive_id"))
              && GetOr(result, "snapshot", EmptyObj).Obj?
              && Truthy(CardsOf(result))
              && Iter(CardsOf(result)).Success?
              && (forall i :: 0 <= i < |Iter(CardsOf(result)).value| ==> Iter(CardsOf(result)).value[i].Obj?)
              && ParsePlatforms(GetOr(result, "publisher_platform", EmptyArr)).Success?
  {
    if result.Obj? && Iter(CardsOf(result)).Success? {
      MapAllPerElement(Iter(CardsOf(result)).value, ParseCard);
    }
  }

  /** A parsed ad holds one version per card, in card order, each the card
      parsed on its own; version_count is their number, the id is the string
      form of ad_archive_id, and the status is "active" exactly when
      is_active is truthy, "inactive" otherwise. */
  lemma CollatedFields(result: Json)
    requires Collated(result).Some?
    ensures var ad := Collated(result).value;
            var items := Iter(CardsOf(result)).value;
            && |ad.versions| == |items| == ad.versionCount
            && (forall i :: 0 <= i < |items| ==> ParseCard(items[i]) == Success(ad.versions[i]))
            && ad.adId == PyStr(Field(result, "ad_archive_id"))
            && (ad.status == STATUS_ACTIVE <==> Truthy(GetOr(result, "is_active", Bool(false))))
            && (ad.status == STATUS_ACTIVE || ad.status == STATUS_INACTIVE)
  {
    MapAllPerElement(Iter(CardsOf(result)).value, ParseCard);
  }

  // ---------------------------------------------------------------------
  // parse_graphql_responses

  /** The edges of one response, found through data.data.ad_library_main
      .search_results_connection.edges. */
  function EdgesOf(response: Json): Result<seq<Json>, PyError>
  {
    var data :- Get(response, "data", EmptyObj);
    var inner :- Get(data, "data", EmptyObj);
    var library :- Get(inner, "ad_library_main", EmptyObj);
    var results :- Get(library, "search_results_connection", EmptyObj);
    var edges :- Get(results, "edges", EmptyArr);
    Iter(edges)
  }

  /** The collated results of one edge. */
  function ResultsOf(edge: Json): Result<seq<Json>, PyError>
  {
    var node :- Get(edge, "node", EmptyObj);
    var collated :- Get(node, "collated_results", EmptyArr);
    Iter(collated)
  }

  /** The ads parsed from a list of collated results, in order. */
  function ResultCandidates(results: seq<Json>): seq<ParsedAd>
  {
    FlatMap(results, CollatedList)
  }

  function CollatedList(result: Json): seq<ParsedAd>
  {
    if Collated(result).Some? then [Collated(result).value] else []
  }

  /** The ads met along a list of edges, up to the first edge that raises. */
  function EdgeCandidates(edges: seq<Json>): seq<ParsedAd>
  {
    if edges == [] then []
    else
      match ResultsOf(edges[0])
      case Failure(_) => []
      case Success(results) => ResultCandidates(results) + EdgeCandidates(edges[1..])
  }

  function ResponseCandidates(response: Json): seq<ParsedAd>
  {
    match EdgesOf(response)
    case Failure(_) => []
    case Success(edges) => EdgeCandidates(edges)
  }

  /** Every ad the loops meet, in encounter order, duplicates included. */
  function Candidates(responses: seq<Json>): seq<ParsedAd>
  {
    FlatMap(responses, ResponseCandidates)
  }

  function AdIdsOf(ads: seq<ParsedAd>): (r: set<string>)
    ensures forall id :: id in r <==> exists i :: 0 <= i < |ads| && ads[i].adId == id
  {
    set i | 0 <= i < |ads| :: ads[i].adId
  }

  /** The first ad met for each id, in encounter order. */
  function FirstOccurrences(c: seq<ParsedAd>): seq<ParsedAd>
  {
    if c == [] then []
    else
      var prev := FirstOccurrences(c[..|c| - 1]);
      if c[|c| - 1].adId in AdIdsOf(prev) then prev else prev + [c[|c| - 1]]
  }

  /** The cap of `max_ads`: the check runs after an append, so at least one
      ad is returned when one is found. */
  function Cap(maxAds: int): nat
  {
    if maxAds >= 1 then maxAds else 1
  }

  function Capped(s: seq<ParsedAd>, maxAds: int): (r: seq<ParsedAd>)
    ensures |r| <= Cap(maxAds) && |r| <= |s|
  {
    if |s| <= Cap(maxAds) then s else s[..Cap(maxAds)]
  }

  /** What parse_graphql_responses returns. */
  function ParseResponsesSpec(responses: seq<Json>, maxAds: int): seq<ParsedAd>
  {
    Capped(FirstOccurrences(Candidates(responses)), maxAds)
  }

  lemma {:induction false} FirstOccurrencesPrefix(p: seq<ParsedAd>, q: seq<ParsedAd>)
    ensures |FirstOccurrences(p)| <= |FirstOccurrences(p + q)|
    ensures FirstOccurrences(p + q)[..|FirstOccurrences(p)|] == FirstOccurrences(p)
    decreases |q|
  {
    if q == [] {
      assert p + q == p;
    } else {
      var pq := p + q;
      assert pq[..|pq| - 1] == p + q[..|q| - 1];
      FirstOccurrencesPrefix(p, q[..|q| - 1]);
      var prev, n := FirstOccurrences(p + q[..|q| - 1]), |FirstOccurrences(p)|;
      if FirstOccurrences(pq) != prev {
        assert FirstOccurrences(pq) == prev + [pq[|pq| - 1]];
        assert (prev + [pq[|pq| - 1]])[..n] == prev[..n];
      }
    }
  }

  /** The loop state before the cap is reached: `ads` holds the first ad met
      for each id among the candidates `met` so far, `seen` their ids. */
  ghost predicate Collecting(ads: seq<ParsedAd>, seen: set<string>, met: seq<ParsedAd>, maxAds: int)
  {
    ads == FirstOccurrences(met) && seen == AdIdsOf(ads) && |ads| < Cap(maxAds)
  }

  /** Once the cap is reached, later candidates no longer change the result. */
  lemma CapReached(met: seq<ParsedAd>, rest: seq<ParsedAd>, maxAds: int)
    requires |FirstOccurrences(met)| == Cap(maxAds)
    ensures Capped(FirstOccurrences(met + rest), maxAds) == FirstOccurrences(met)
  {
    FirstOccurrencesPrefix(met, rest);
  }

  /** One parsed ad met by the loops: kept when its id is new, with the cap
      checked after the append. */
  method Offer(ad: ParsedAd, maxAds: int, ads0: seq<ParsedAd>, seen0: set<string>, ghost met0: seq<ParsedAd>)
    returns (ads: seq<ParsedAd>, seen: set<string>, done: bool, ghost met: seq<ParsedAd>)
    requires Collecting(ads0, seen0, met0, maxAds)
    ensures met == met0 + [ad]
    ensures done ==> ads == FirstOccurrences(met) && |ads| == Cap(maxAds)
    ensures !done ==> Collecting(ads, seen, met, maxAds)
  {
    met := met0 + [ad];
    assert met[..|met| - 1] == met0;
    ads, seen, done := ads0, seen0, false;
    if ad.adId !in seen {
      seen := seen + {ad.adId};
      ads := ads + [ad];
      AdIdsOfSnoc(ads0, ad);
      if |ads| >= maxAds {
        done := true;
      }
    }
  }

  /** The innermost loop, over the collated results of one edge. `done`
      is the early return; `after` stands for the candidates still to come. */
  method CollectResults(results: seq<Json>, maxAds: int, ads0: seq<ParsedAd>, seen0: set<string>,
                        ghost met0: seq<ParsedAd>, ghost after: seq<ParsedAd>)
    returns (ads: seq<ParsedAd>, seen: set<string>, done: bool, ghost met: seq<ParsedAd>)
    requires Collecting(ads0, seen0, met0, maxAds)
    ensures done ==> ads == Capped(FirstOccurrences(met0 + ResultCandidates(results) + after), maxAds)
    ensures !done ==> met == met0 + ResultCandidates(results) && Collecting(ads, seen, met, maxAds)
  {
    ads, seen, done, met := ads0, seen0, false, met0;
    var k := 0;
    while k < |results|
      invariant 0 <= k <= |results|
      invariant Collecting(ads, seen, met, maxAds)
      invariant met + ResultCandidates(results[k..]) == met0 + ResultCandidates(results)
    {
      FlatMapStep(results, k, CollatedList);
      ghost var later := ResultCandidates(results[k + 1..]);
      var adData := ParseCollatedResult(results[k]);
      if adData.Some? {
        assert CollatedList(results[k]) == [adData.value];
        ghost var before := met;
        ads, seen, done, met := Offer(adData.value, maxAds, ads, seen, met);
        AppendAssoc(before, [adData.value], later);
        if done {
          CapReached(met, later + after, maxAds);
          AppendAssoc(met, later, after);
          return;
        }
      } else {
        assert CollatedList(results[k]) == [];
        assert CollatedList(results[k]) + later == later;
      }
      k := k + 1;
    }
    assert results[k..] == [];
  }

  /** The middle loop, over the edges of one response; an edge that raises
      abandons the rest of the response. */
  method CollectEdges(edges: seq<Json>, maxAds: int, ads0: seq<ParsedAd>, seen0: set<string>,
                      ghost met0: seq<ParsedAd>, ghost after: seq<ParsedAd>)
    returns (ads: seq<ParsedAd>, seen: set<string>, done: bool, ghost met: seq<ParsedAd>)
    requires Collecting(ads0, seen0, met0, maxAds)
    ensures done ==> ads == Capped(FirstOccurrences(met0 + EdgeCandidates(edges) + after), maxAds)
    ensures !done ==> met == met0 + EdgeCandidates(edges) && Collecting(ads, seen, met, maxAds)
  {
    ads, seen, done, met := ads0, seen0, false, met0;
    var j := 0;
    while j < |edges|
      invariant 0 <= j <= |edges|
      invariant Collecting(ads, seen, met, maxAds)
      invariant met + EdgeCandidates(edges[j..]) == met0 + EdgeCandidates(edges)
    {
      EdgeStep(edges, j);
      var inEdge := ResultsOf(edges[j]);
      if inEdge.Failure? {
        return;
      }
      ghost var edgeAfter := EdgeCandidates(edges[j + 1..]);
      ghost var found := ResultCandidates(inEdge.value);
      ghost var met1 := met;
      ads, seen, done, met := CollectResults(inEdge.value, maxAds, ads, seen, met, edgeAfter + after);
      AppendAssoc(met1, found, edgeAfter);
      if done {
        AppendAssoc(met1 + found, edgeAfter, after);
        return;
      }
      j := j + 1;
    }
    assert edges[j..] == [];
  }

  /** One step of the edge loop: an edge that raises ends the response. */
  lemma EdgeStep(edges: seq<Json>, j: nat)
    requires j < |edges|
    ensures ResultsOf(edges[j]).Failure? ==> EdgeCandidates(edges[j..]) == []
    ensures ResultsOf(edges[j]).Success? ==>
              EdgeCandidates(edges[j..]) == ResultCandidates(ResultsOf(edges[j]).value) + EdgeCandidates(edges[j + 1..])
  {
    assert edges[j..][0] == edges[j];
    assert edges[j..][1..] == edges[j + 1..];
  }

  /** `parse_graphql_responses(responses, max_ads)`: the outer loop, with the
      early return once the cap is reached. A response that raises is
      abandoned at that point, keeping the ads collected from it so far. */
  method ParseGraphqlResponses(responses: seq<Json>, maxAds: int) returns (ads: seq<ParsedAd>)
    ensures ads == ParseResponsesSpec(responses, maxAds)
    ensures |ads| <= Cap(maxAds)
  {
    ads := [];
    var seen: set<string> := {};
    ghost var met: seq<ParsedAd> := [];
    var i := 0;
    while i < |responses|
      invariant 0 <= i <= |responses|
      invariant Collecting(ads, seen, met, maxAds)
      invariant met + Candidates(responses[i..]) == Candidates(responses)
    {
      ResponseStep(responses, i);
      ghost var after := Candidates(responses[i + 1..]);
      var found := EdgesOf(responses[i]);
      if found.Success? {
        ghost var edgeFound := EdgeCandidates(found.value);
        var done;
        ghost var met1 := met;
        AppendAssoc(met1, edgeFound, after);
        ads, seen, done, met := CollectEdges(found.value, maxAds, ads, seen, met, after);
        if done {
          return;
        }
      }
      i := i + 1;
    }
    assert responses[i..] == [];
    assert met + [] == met;
  }

  /** One step of the response loop: a response that raises before its
      edges are reached contributes nothing. */
  lemma ResponseStep(responses: seq<Json>, i: nat)
    requires i < |responses|
    ensures EdgesOf(responses[i]).Failure? ==> Candidates(responses[i..]) == Candidates(responses[i + 1..])
    ensures EdgesOf(responses[i]).Success? ==>
              Candidates(responses[i..]) == EdgeCandidates(EdgesOf(responses[i]).value) + Candidates(responses[i + 1..])
  {
    FlatMapStep(responses, i, ResponseCandidates);
    assert [] + Candidates(responses[i + 1..]) == Candidates(responses[i + 1..]);
  }

  /** No two returned ads share an ad id. */
  lemma {:induction false} FirstOccurrencesDistinct(c: seq<ParsedAd>)
    ensures forall i, j :: 0 <= i < j < |FirstOccurrences(c)| ==>
              FirstOccurrences(c)[i].adId != FirstOccurrences(c)[j].adId
  {
    if c != [] {
      FirstOccurrencesDistinct(c[..|c| - 1]);
    }
  }

  /** Index of the first candidate with the given id. */
  function FirstIndex(c: seq<ParsedAd>, id: string): (r: nat)
    ensures r <= |c|
    ensures r < |c| ==> c[r].adId == id
    ensures forall j :: 0 <= j < r ==> c[j].adId != id
  {
    if c == [] then 0
    else if c[0].adId == id then 0
    else FirstIndex(c[1..], id) + 1
  }

  lemma {:induction false} FirstIndexOfPrefix(c: seq<ParsedAd>, id: string)
    requires c != [] && id in AdIdsOf(c[..|c| - 1])
    ensures FirstIndex(c, id) == FirstIndex(c[..|c| - 1], id)
  {
    var init := c[..|c| - 1];
    var k :| 0 <= k < |init| && init[k].adId == id;
    assert c[k].adId == id;
    if c[0].adId != id {
      assert c[1..][..|c[1..]| - 1] == init[1..];
      assert init[1..][k - 1].adId == id;
      FirstIndexOfPrefix(c[1..], id);
    }
  }

  lemma {:induction false} FirstIndexAbsent(c: seq<ParsedAd>, id: string)
    requires c != [] && c[|c| - 1].adId == id && id !in AdIdsOf(c[..|c| - 1])
    ensures FirstIndex(c, id) == |c| - 1
  {
    if |c| > 1 {
      assert c[0] == c[..|c| - 1][0];
      assert c[1..][..|c[1..]| - 1] == c[..|c| - 1][1..];
      FirstIndexAbsent(c[1..], id);
    }
  }

  lemma AdIdsOfSnoc(s: seq<ParsedAd>, x: ParsedAd)
    ensures AdIdsOf(s + [x]) == AdIdsOf(s) + {x.adId}
  {
    forall id | id in AdIdsOf(s) ensures id in AdIdsOf(s + [x]) {
      var i :| 0 <= i < |s| && s[i].adId == id;
      assert (s + [x])[i] == s[i];
    }
    assert (s + [x])[|s|] == x;
  }

  /** Every candidate's id is returned. */
  lemma {:induction false} FirstOccurrencesIds(c: seq<ParsedAd>)
    ensures AdIdsOf(FirstOccurrences(c)) == AdIdsOf(c)
  {
    if c != [] {
      var init := c[..|c| - 1];
      FirstOccurrencesIds(init);
      var x := c[|c| - 1];
      var prev := FirstOccurrences(init);
      assert c == init + [x];
      AdIdsOfSnoc(init, x);
      AdIdsOfSnoc(prev, x);
    }
  }

  /** The first occurrence wins: each returned ad is the first candidate met
      with its id. */
  lemma {:induction false} FirstOccurrencesFirst(c: seq<ParsedAd>)
    ensures forall k :: 0 <= k < |FirstOccurrences(c)| ==>
              FirstIndex(c, FirstOccurrences(c)[k].adId) < |c| &&
              c[FirstIndex(c, FirstOccurrences(c)[k].adId)] == FirstOccurrences(c)[k]
  {
    if c != [] {
      var init := c[..|c| - 1];
      var x := c[|c| - 1];
      var prev := FirstOccurrences(init);
      FirstOccurrencesFirst(init);
      EarlierIndexKept(c, init, prev);
      if x.adId !in AdIdsOf(prev) {
        FirstOccurrencesIds(init);
        FirstIndexAbsent(c, x.adId);
      }
    }
  }

  /** Ads already returned for the candidates before the last one keep the
      index where their id was first met. */
  lemma EarlierIndexKept(c: seq<ParsedAd>, init: seq<ParsedAd>, prev: seq<ParsedAd>)
    requires c != [] && init == c[..|c| - 1] && prev == FirstOccurrences(init)
    requires forall k :: 0 <= k < |prev| ==>
               FirstIndex(init, prev[k].adId) < |init| && init[FirstIndex(init, prev[k].adId)] == prev[k]
    ensures forall k :: 0 <= k < |prev| ==>
              FirstIndex(c, prev[k].adId) == FirstIndex(init, prev[k].adId) &&
              c[FirstIndex(c, prev[k].adId)] == prev[k]
  {
    forall k | 0 <= k < |prev|
      ensures FirstIndex(c, prev[k].adId) == FirstIndex(init, prev[k].adId)
      ensures c[FirstIndex(c, prev[k].adId)] == prev[k]
    {
      var id := prev[k].adId;
      assert init[FirstIndex(init, id)].adId == id;
      FirstIndexOfPrefix(c, id);
    }
  }

  /** Encounter order is kept: returned ads are ordered by where their id was
      first met. */
  lemma {:induction false} FirstOccurrencesOrdered(c: seq<ParsedAd>)
    ensures forall a, b :: 0 <= a < b < |FirstOccurrences(c)| ==>
              FirstIndex(c, FirstOccurrences(c)[a].adId) < FirstIndex(c, FirstOccurrences(c)[b].adId)
  {
    if c != [] {
      var init := c[..|c| - 1];
      var x := c[|c| - 1];
      var prev := FirstOccurrences(init);
      FirstOccurrencesOrdered(init);
      FirstOccurrencesFirst(init);
      EarlierIndexKept(c, init, prev);
      if x.adId !in AdIdsOf(prev) {
        FirstOccurrencesIds(init);
        FirstIndexAbsent(c, x.adId);
        var out := prev + [x];
        assert FirstOccurrences(c) == out;
        forall a, b | 0 <= a < b < |out|
          ensures FirstIndex(c, out[a].adId) < FirstIndex(c, out[b].adId)
        {
          assert out[a] == prev[a];
          if b < |prev| {
            assert out[b] == prev[b];
          }
        }
      }
    }
  }

  /** Collecting more responses never loses or reorders ads already
      returned: the result for a list of responses is a prefix of the result
      for any longer list. */
  lemma ParseResponsesMonotone(p: seq<Json>, q: seq<Json>, maxAds: int)
    ensures |ParseResponsesSpec(p, maxAds)| <= |ParseResponsesSpec(p + q, maxAds)|
    ensures ParseResponsesSpec(p + q, maxAds)[..|ParseResponsesSpec(p, maxAds)|] == ParseResponsesSpec(p, maxAds)
  {
    FlatMapAppend(p, q, ResponseCandidates);
    FirstOccurrencesPrefix(Candidates(p), Candidates(q));
  }

  /** A response that raises before its edges are reached contributes
      nothing, and the ads of the other responses are kept. */
  lemma FailingResponseIsSkipped(p: seq<Json>, bad: Json, q: seq<Json>, maxAds: int)
    requires EdgesOf(bad).Failure?
    ensures ParseResponsesSpec(p + [bad] + q, maxAds) == ParseResponsesSpec(p + q, maxAds)
  {
    assert ResponseCandidates(bad) == [];
    FlatMapSkip(p, bad, q, ResponseCandidates);
  }
}

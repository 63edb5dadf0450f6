/**
 * The listing page: which request the filter state turns into, the search
 * handler, and the two client-side filters applied to the tours that came
 * back (by content type, then by the pet information collected for them).
 */
module TourPageContent {
  import opened Wrappers
  import opened Text
  import opened TourTypes
  import opened PetSizes
  import opened Filters
  import Seqs
  import TourApi

  // ---------------------------------------------------------------------------
  // The request

  /** The API filters on one type only: a type id is sent when exactly one type is selected. */
  function SingleContentType(contentTypeIds: Option<seq<string>>): (r: Option<string>)
    ensures r.Some? <==> contentTypeIds.Some? && |contentTypeIds.value| == 1
    ensures r.Some? ==> r == Some(contentTypeIds.value[0]) && r.value in contentTypeIds.value
  {
    if contentTypeIds.Some? && |contentTypeIds.value| == 1 then Some(contentTypeIds.value[0]) else None
  }

  /** The two requests `loadTours` can make. */
  datatype TourQuery =
    | KeywordSearch(keyword: string, keywordOptions: TourApi.KeywordOptions)
    | AreaList(areaOptions: TourApi.AreaListOptions)

  /**
   * The request of `loadTours`: a keyword search for a keyword that is not
   * blank, an area-based list otherwise, with the single selected type and the
   * page size, page number and sort order defaulted.
   */
  function SelectQuery(filterState: FilterState): (q: TourQuery)
    ensures q.KeywordSearch? <==> filterState.keyword.Some? && Trim(filterState.keyword.value) != ""
    ensures q.KeywordSearch? ==> q.keyword == Trim(filterState.keyword.value)
    ensures q.KeywordSearch? ==> q.keywordOptions.contentTypeId == SingleContentType(filterState.contentTypeIds)
    ensures q.AreaList? ==> q.areaOptions.contentTypeId == SingleContentType(filterState.contentTypeIds)
    ensures q.AreaList? ==> q.areaOptions.arrange == Some(filterState.arrange.GetOr(Modified))
    ensures q.KeywordSearch? ==> q.keywordOptions.areaCode == filterState.areaCode
    ensures q.AreaList? ==> q.areaOptions.areaCode == filterState.areaCode
    ensures var rows := Some(TourApi.OrDefault(filterState.numOfRows, 20));
      (q.KeywordSearch? ==> q.keywordOptions.numOfRows == rows) && (q.AreaList? ==> q.areaOptions.numOfRows == rows)
    ensures var page := Some(TourApi.OrDefault(filterState.pageNo, 1));
      (q.KeywordSearch? ==> q.keywordOptions.pageNo == page) && (q.AreaList? ==> q.areaOptions.pageNo == page)
  {
    var contentTypeId := SingleContentType(filterState.contentTypeIds);
    var numOfRows := Some(TourApi.OrDefault(filterState.numOfRows, 20));
    var pageNo := Some(TourApi.OrDefault(filterState.pageNo, 1));
    if filterState.keyword.Some? && Trim(filterState.keyword.value) != "" then
      KeywordSearch(Trim(filterState.keyword.value), TourApi.KeywordOptions(filterState.areaCode, contentTypeId, numOfRows, pageNo))
    else
      AreaList(TourApi.AreaListOptions(filterState.areaCode, contentTypeId, numOfRows, pageNo,
                                       Some(filterState.arrange.GetOr(Modified))))
  }

  /**
   * The request `loadTours` makes from the browser. Either way a request is
   * made (the keyword is not blank once trimmed, so the search never answers
   * empty without asking), at most three times, and a failure is reported only
   * after the third attempt.
   */
  function LoadTours(filterState: FilterState, env: TourApi.Env,
                     net: (TourApi.Request, nat) -> TourApi.Exchange<TourItem>): (r: TourApi.ApiCall<TourApi.Page<TourItem>>)
    ensures 1 <= r.attempts <= TourApi.MaxRetries
    ensures r.result.Failure? ==> r.attempts == TourApi.MaxRetries
  {
    TrimIdempotent(filterState.keyword.GetOr(""));
    match SelectQuery(filterState)
    case KeywordSearch(keyword, options) => TourApi.SearchKeyword(keyword, options, env, false, net)
    case AreaList(options) => TourApi.GetAreaBasedList(options, env, false, net)
  }

  /** Defaulting twice is defaulting once: the page's `|| 20` and the client's `|| 20` agree. */
  lemma OrDefaultTwice(n: Option<int>, default: int)
    requires default != 0
    ensures TourApi.OrDefault(Some(TourApi.OrDefault(n, default)), default) == TourApi.OrDefault(n, default)
  {
  }

  /**
   * What reaches the upstream for the listing: the trimmed keyword (for a
   * keyword search), the area, the single selected type, and the page size and
   * number with `undefined` and `0` replaced by 20 and 1.
   */
  lemma LoadToursQuery(filterState: FilterState, env: TourApi.Env)
    requires TourApi.CommonParams(env, false).Success?
    ensures var q := SelectQuery(filterState);
      q.KeywordSearch? ==>
        var sent := TourApi.Prepare(env, false, "/searchKeyword2", TourApi.KeywordParams(q.keyword, q.keywordOptions)).value.query;
        TourApi.Lookup(sent, "keyword") == Some(Trim(filterState.keyword.value)) &&
        TourApi.Lookup(sent, "areaCode") == filterState.areaCode &&
        TourApi.Lookup(sent, "contentTypeId") == SingleContentType(filterState.contentTypeIds) &&
        TourApi.Lookup(sent, "numOfRows") == Some(IntToString(TourApi.OrDefault(filterState.numOfRows, 20))) &&
        TourApi.Lookup(sent, "pageNo") == Some(IntToString(TourApi.OrDefault(filterState.pageNo, 1)))
    ensures var q := SelectQuery(filterState);
      q.AreaList? ==>
        var sent := TourApi.Prepare(env, false, "/areaBasedList2", TourApi.AreaListParams(q.areaOptions)).value.query;
        TourApi.Lookup(sent, "areaCode") == filterState.areaCode &&
        TourApi.Lookup(sent, "contentTypeId") == SingleContentType(filterState.contentTypeIds) &&
        TourApi.Lookup(sent, "numOfRows") == Some(IntToString(TourApi.OrDefault(filterState.numOfRows, 20))) &&
        TourApi.Lookup(sent, "pageNo") == Some(IntToString(TourApi.OrDefault(filterState.pageNo, 1))) &&
        TourApi.Lookup(sent, "arrange") == Some(ArrangeCode(filterState.arrange.GetOr(Modified)))
  {
    var q := SelectQuery(filterState);
    match q
    case KeywordSearch(keyword, options) =>
      TourApi.KeywordQuery(keyword, options, env, false);
      TrimIdempotent(filterState.keyword.value);
    case AreaList(options) =>
      TourApi.AreaListQuery(options, env, false);
  }

  /** For a state read from the URL the defaults never apply (page and size are positive), and the route is decided by the keyword's presence. */
  lemma ParsedStateQuery(p: SearchParams)
    ensures var f := ParseFilter(p);
      SelectQuery(f).KeywordSearch? <==> f.keyword.Some? && f.keyword.value != ""
    ensures var f := ParseFilter(p);
      TourApi.OrDefault(f.numOfRows, 20) == f.numOfRows.value && TourApi.OrDefault(f.pageNo, 1) == f.pageNo.value
  {
    ParseShape(p);
    var f := ParseFilter(p);
    if f.keyword.Some? {
      TrimOfTrimmed(f.keyword.value);
    }
  }

  // ---------------------------------------------------------------------------
  // Search

  /** `handleSearch`: the keyword (an empty one becomes `undefined`) on the first page, everything else kept. */
  function HandleSearch(filters: FilterState, keyword: string): (r: FilterState)
    ensures r.keyword == if keyword == "" then None else Some(keyword)
    ensures r.pageNo == Some(1)
    ensures r.(keyword := filters.keyword, pageNo := filters.pageNo) == filters
  {
    filters.(keyword := if keyword == "" then None else Some(keyword), pageNo := Some(1))
  }

  /**
   * A search whose keyword is not blank becomes a keyword search for the
   * trimmed keyword on page 1; a blank one (white space only) lists by area.
   */
  lemma SearchRoutes(filters: FilterState, keyword: string)
    ensures SelectQuery(HandleSearch(filters, keyword)).KeywordSearch? <==> Trim(keyword) != ""
    ensures Trim(keyword) != "" ==>
      SelectQuery(HandleSearch(filters, keyword)) ==
        KeywordSearch(Trim(keyword), TourApi.KeywordOptions(filters.areaCode, SingleContentType(filters.contentTypeIds),
                      Some(TourApi.OrDefault(filters.numOfRows, 20)), Some(1)))
  {
    if keyword == "" {
      assert Trim(keyword) == "";
    }
  }

  /** After the state goes through the URL, a search still lists page 1, and a non-blank keyword comes back trimmed. */
  lemma SearchThroughUrl(filters: FilterState, keyword: string)
    ensures ParseFilter(Reload(HandleSearch(filters, keyword))).pageNo == Some(1)
    ensures ParseFilter(Reload(HandleSearch(filters, keyword))).keyword ==
      if Trim(keyword) == "" then None else Some(Trim(keyword))
  {
    var f := HandleSearch(filters, keyword);
    WritesPages(f);
    RoundTripPositive(Some(1), "pageNo", DefaultPageNo, AsMap(ToParams(f)));
    assert Entry(ToParams(f), "keyword") == KeywordParam(f);
    if keyword == "" {
      assert Trim(keyword) == "";
    }
    if Trim(keyword) != "" {
      TrimIdempotent(keyword);
    }
  }

  // ---------------------------------------------------------------------------
  // Client-side filtering

  /** `contentTypeFilteredTours`: with a non-empty selection, the tours of a selected type; otherwise all of them. */
  function ContentTypeFiltered(tours: seq<TourItem>, contentTypeIds: Option<seq<string>>): (r: seq<TourItem>)
    ensures Seqs.IsSubsequence(r, tours)
    ensures contentTypeIds == None || contentTypeIds == Some([]) ==> r == tours
    ensures contentTypeIds.Some? && contentTypeIds.value != [] ==>
      (forall i :: 0 <= i < |r| ==> r[i].contenttypeid in contentTypeIds.value) &&
      (forall i :: 0 <= i < |tours| && tours[i].contenttypeid in contentTypeIds.value ==> tours[i] in r) &&
      (forall t {:trigger multiset(r)[t]} :: multiset(r)[t] == if t.contenttypeid in contentTypeIds.value then multiset(tours)[t] else 0)
  {
    if contentTypeIds.Some? && |contentTypeIds.value| > 0 then
      Seqs.Filter(TypeTest(contentTypeIds.value), tours)
    else
      Seqs.SubsequenceRefl(tours);
      tours
  }

  /** The test of `contentTypeFilteredTours`: the tour's type is among the selected ones. */
  function TypeTest(contentTypeIds: seq<string>): TourItem -> bool {
    (tour: TourItem) => tour.contenttypeid in contentTypeIds
  }

  /** The leash vocabulary that counts as "pets allowed", after trimming and lower-casing. */
  const LeashAllowedWords: set<string> := {"y", "yes", "가능", "동반가능"}

  predicate LeashAllowed(chkpetleash: Option<string>) {
    chkpetleash.Some? && ToLower(Trim(chkpetleash.value)) in LeashAllowedWords
  }

  /** The size test: none when no size is selected, otherwise a recognised size that is selected. */
  predicate SizeAllowed(chkpetsize: Option<string>, petSizes: Option<seq<PetSize>>) {
    petSizes.Some? && |petSizes.value| > 0 ==>
      ParsePetSize(chkpetsize).Some? && ParsePetSize(chkpetsize).value in petSizes.value
  }

  /** The test a tour must pass: pet information that was found, that allows pets, and whose size is selected. */
  predicate PetPasses(tour: TourItem, petTourInfoMap: map<string, Option<PetTourInfo>>, petSizes: Option<seq<PetSize>>) {
    tour.contentid in petTourInfoMap && petTourInfoMap[tour.contentid].Some? &&
    LeashAllowed(petTourInfoMap[tour.contentid].value.chkpetleash) &&
    SizeAllowed(petTourInfoMap[tour.contentid].value.chkpetsize, petSizes)
  }

  /** `filteredTours`: the listing shown is always the fetched tours with some left out, in their order. */
  function FilteredTours(tours: seq<TourItem>, filters: FilterState,
                         petTourInfoMap: map<string, Option<PetTourInfo>>, isLoadingPetInfo: bool): (r: seq<TourItem>)
    ensures Seqs.IsSubsequence(r, tours)
  {
    var typed := ContentTypeFiltered(tours, filters.contentTypeIds);
    if filters.petFriendly != Some(true) then typed
    else if isLoadingPetInfo && |petTourInfoMap| == 0 then []
    else
      var shown := Seqs.Filter(PetTest(petTourInfoMap, filters.petSizes), typed);
      Seqs.SubsequenceTrans(shown, typed, tours);
      shown
  }

  function PetTest(petTourInfoMap: map<string, Option<PetTourInfo>>, petSizes: Option<seq<PetSize>>): TourItem -> bool {
    (tour: TourItem) => PetPasses(tour, petTourInfoMap, petSizes)
  }

  /** With the pet filter off only the type filter applies; while the pet information loads and none is there yet, nothing is shown. */
  lemma PetFilterSwitch(tours: seq<TourItem>, filters: FilterState,
                        petTourInfoMap: map<string, Option<PetTourInfo>>, isLoadingPetInfo: bool)
    ensures filters.petFriendly != Some(true) ==>
      FilteredTours(tours, filters, petTourInfoMap, isLoadingPetInfo) == ContentTypeFiltered(tours, filters.contentTypeIds)
    ensures filters.petFriendly == Some(true) && isLoadingPetInfo && |petTourInfoMap| == 0 ==>
      FilteredTours(tours, filters, petTourInfoMap, isLoadingPetInfo) == []
  {
  }

  /**
   * With the pet filter on (and information there or loading finished), a tour
   * is shown exactly when its type is selected, its information was found, its
   * trimmed lower-cased leash field is one of `y`, `yes`, `가능`, `동반가능`,
   * and, when sizes are selected, its size field names a selected size.
   */
  lemma PetFilterMembers(tours: seq<TourItem>, filters: FilterState,
                         petTourInfoMap: map<string, Option<PetTourInfo>>, isLoadingPetInfo: bool, tour: TourItem)
    requires filters.petFriendly == Some(true) && !(isLoadingPetInfo && |petTourInfoMap| == 0)
    ensures tour in FilteredTours(tours, filters, petTourInfoMap, isLoadingPetInfo) <==>
      && tour in ContentTypeFiltered(tours, filters.contentTypeIds)
      && tour.contentid in petTourInfoMap
      && petTourInfoMap[tour.contentid].Some?
      && petTourInfoMap[tour.contentid].value.chkpetleash.Some?
      && ToLower(Trim(petTourInfoMap[tour.contentid].value.chkpetleash.value)) in {"y", "yes", "가능", "동반가능"}
      && (filters.petSizes.Some? && filters.petSizes.value != [] ==>
            ParsePetSize(petTourInfoMap[tour.contentid].value.chkpetsize).Some? &&
            ParsePetSize(petTourInfoMap[tour.contentid].value.chkpetsize).value in filters.petSizes.value)
  {
    var typed := ContentTypeFiltered(tours, filters.contentTypeIds);
    PetFilterKeeps(typed, petTourInfoMap, filters.petSizes, tour);
    PetPassesExplained(tour, petTourInfoMap, filters.petSizes);
  }

  lemma PetPassesExplained(tour: TourItem, petTourInfoMap: map<string, Option<PetTourInfo>>, petSizes: Option<seq<PetSize>>)
    ensures PetPasses(tour, petTourInfoMap, petSizes) <==>
      && tour.contentid in petTourInfoMap
      && petTourInfoMap[tour.contentid].Some?
      && petTourInfoMap[tour.contentid].value.chkpetleash.Some?
      && ToLower(Trim(petTourInfoMap[tour.contentid].value.chkpetleash.value)) in {"y", "yes", "가능", "동반가능"}
      && (petSizes.Some? && petSizes.value != [] ==>
            ParsePetSize(petTourInfoMap[tour.contentid].value.chkpetsize).Some? &&
            ParsePetSize(petTourInfoMap[tour.contentid].value.chkpetsize).value in petSizes.value)
  {
  }

  lemma PetFilterKeeps(typed: seq<TourItem>, petTourInfoMap: map<string, Option<PetTourInfo>>,
                       petSizes: Option<seq<PetSize>>, tour: TourItem)
    ensures tour in Seqs.Filter(PetTest(petTourInfoMap, petSizes), typed) <==> tour in typed && PetPasses(tour, petTourInfoMap, petSizes)
  {
    Seqs.FilterMembership(PetTest(petTourInfoMap, petSizes), typed, tour);
  }

  /** A tour for which no information was collected (or only `null`) is never shown while the pet filter is on. */
  lemma MissingInfoHidden(tours: seq<TourItem>, filters: FilterState,
                          petTourInfoMap: map<string, Option<PetTourInfo>>, isLoadingPetInfo: bool, tour: TourItem)
    requires filters.petFriendly == Some(true)
    requires tour.contentid !in petTourInfoMap || petTourInfoMap[tour.contentid] == None
    ensures tour !in FilteredTours(tours, filters, petTourInfoMap, isLoadingPetInfo)
  {
    var typed := ContentTypeFiltered(tours, filters.contentTypeIds);
    Seqs.FilterMembership(PetTest(petTourInfoMap, filters.petSizes), typed, tour);
  }

  /**
   * When one type is selected and the upstream honoured it (every tour it sent
   * is of that type), the client-side type filter keeps everything.
   */
  lemma SingleTypeFilterRedundant(tours: seq<TourItem>, contentTypeIds: Option<seq<string>>)
    requires SingleContentType(contentTypeIds).Some?
    requires forall i :: 0 <= i < |tours| ==> tours[i].contenttypeid == SingleContentType(contentTypeIds).value
    ensures ContentTypeFiltered(tours, contentTypeIds) == tours
  {
    Seqs.FilterAll(TypeTest(contentTypeIds.value), tours);
  }
}

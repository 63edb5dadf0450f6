/**
 * The filter state of the listing page and its URL query-parameter codec:
 * parsing a query-parameter record into a filter state (with defaults and
 * validation) and serialising a filter state back, omitting default values.
 */
module Filters {
  import opened Wrappers
  import opened Text
  import opened PetSizes
  import Seqs

  /** Sort order: `A` by title, `B` by views, `C` by modification date, `D` by distance. */
  datatype Arrange = Title | Views | Modified | Distance

  function ArrangeCode(a: Arrange): string {
    match a
    case Title => "A"
    case Views => "B"
    case Modified => "C"
    case Distance => "D"
  }

  /** The sort order whose code is `s`, if `s` is one of `A`, `B`, `C`, `D`. */
  function ArrangeOfCode(s: string): (r: Option<Arrange>)
    ensures r.Some? ==> ArrangeCode(r.value) == s
    ensures forall a :: ArrangeCode(a) == s ==> r == Some(a)
  {
    if s == "A" then Some(Title)
    else if s == "B" then Some(Views)
    else if s == "C" then Some(Modified)
    else if s == "D" then Some(Distance)
    else None
  }

  /** Every field is optional; `None` is an absent (undefined) field. */
  datatype FilterState = FilterState(
    areaCode: Option<string>,
    contentTypeIds: Option<seq<string>>,
    arrange: Option<Arrange>,
    pageNo: Option<int>,
    numOfRows: Option<int>,
    petFriendly: Option<bool>,
    petSizes: Option<seq<PetSize>>,
    keyword: Option<string>)

  const DefaultArrange: Arrange := Modified
  const DefaultPageNo: int := 1
  const DefaultNumOfRows: int := 20

  /** `DEFAULT_FILTER_STATE`: sorted by modification date, first page, twenty rows. */
  const DefaultFilterState: FilterState :=
    FilterState(None, None, Some(DefaultArrange), Some(DefaultPageNo), Some(DefaultNumOfRows), None, None, None)

  /** A query parameter value: a single string or, for a repeated key, an array of strings. */
  datatype ParamValue = Single(s: string) | Multiple(items: seq<string>)

  /** The query-parameter record; a key that is absent is an undefined entry. */
  type SearchParams = map<string, ParamValue>

  /** JavaScript truthiness of a parameter value: only the empty string is falsy (an array always is truthy). */
  predicate Truthy(v: ParamValue) {
    v.Single? ==> v.s != ""
  }

  /** The parameter as a non-empty string, if it is one (the source's `p.k && typeof p.k === 'string'`). */
  function StringParam(p: SearchParams, key: string): (r: Option<string>)
    ensures r.Some? ==> r.value != ""
  {
    if key in p && p[key].Single? && p[key].s != "" then Some(p[key].s) else None
  }

  predicate NonEmpty(s: string) { s != "" }

  /** `s.split(',').map(id => id.trim())`. */
  function SplitList(s: string): seq<string> {
    Seqs.Map(Trim, Split(s, ','))
  }

  /** The pieces of a list parameter: an array as it is, a string split at commas and trimmed. */
  function ListPieces(v: ParamValue): seq<string> {
    if v.Multiple? then v.items else SplitList(v.s)
  }

  /** The sizes named by the valid pieces, in order; pieces that name no size are dropped. */
  function SizesOfNames(pieces: seq<string>): (r: seq<PetSize>)
    ensures Seqs.Map(PetSizeName, r) == Seqs.Filter(s => PetSizeOfName(s).Some?, pieces)
    decreases |pieces|
  {
    if pieces == [] then []
    else match PetSizeOfName(pieces[0])
      case Some(size) => [size] + SizesOfNames(pieces[1..])
      case None => SizesOfNames(pieces[1..])
  }

  function ParseAreaCode(p: SearchParams): Option<string> {
    StringParam(p, "areaCode")
  }

  function ParseContentTypeIds(p: SearchParams): Option<seq<string>> {
    if "contentTypeIds" in p && Truthy(p["contentTypeIds"])
    then Some(Seqs.Filter(NonEmpty, ListPieces(p["contentTypeIds"])))
    else None
  }

  function ParseArrange(p: SearchParams): Option<Arrange> {
    var s := StringParam(p, "arrange");
    if s.Some? && ArrangeOfCode(s.value).Some? then ArrangeOfCode(s.value) else Some(DefaultArrange)
  }

  /** A positive integer parameter, or the default when absent, not a number or not positive. */
  function ParsePositive(p: SearchParams, key: string, default: int): Option<int> {
    var s := StringParam(p, key);
    if s.Some? && ParseInt(s.value).Some? && ParseInt(s.value).value > 0
    then ParseInt(s.value)
    else Some(default)
  }

  function ParsePetFriendly(p: SearchParams): Option<bool> {
    var s := StringParam(p, "petFriendly");
    if s.Some? then Some(s.value == "true") else None
  }

  function ParsePetSizes(p: SearchParams): Option<seq<PetSize>> {
    if "petSizes" in p && Truthy(p["petSizes"]) && SizesOfNames(ListPieces(p["petSizes"])) != []
    then Some(SizesOfNames(ListPieces(p["petSizes"])))
    else None
  }

  function ParseKeyword(p: SearchParams): Option<string> {
    var s := StringParam(p, "keyword");
    if s.Some? then Some(Trim(s.value)) else None
  }

  /** The filter state `parseFilterFromSearchParams` builds, field by field; a key that is absent leaves its field at the default. */
  function ParseFilter(p: SearchParams): (r: FilterState)
    ensures "areaCode" !in p ==> r.areaCode == None
    ensures "contentTypeIds" !in p ==> r.contentTypeIds == None
    ensures "arrange" !in p ==> r.arrange == Some(DefaultArrange)
    ensures "pageNo" !in p ==> r.pageNo == Some(DefaultPageNo)
    ensures "numOfRows" !in p ==> r.numOfRows == Some(DefaultNumOfRows)
    ensures "petFriendly" !in p ==> r.petFriendly == None
    ensures "petSizes" !in p ==> r.petSizes == None
    ensures "keyword" !in p ==> r.keyword == None
  {
    FilterState(
      ParseAreaCode(p),
      ParseContentTypeIds(p),
      ParseArrange(p),
      ParsePositive(p, "pageNo", DefaultPageNo),
      ParsePositive(p, "numOfRows", DefaultNumOfRows),
      ParsePetFriendly(p),
      ParsePetSizes(p),
      ParseKeyword(p))
  }

  /**
   * `parseFilterFromSearchParams`: start from the defaults and overwrite each
   * field the parameters validly give, one field after the other.
   */
  method ParseFilterFromSearchParams(searchParams: SearchParams) returns (filters: FilterState)
    ensures filters == ParseFilter(searchParams)
  {
    var p := searchParams;
    filters := DefaultFilterState;
    var areaCode := StringParam(p, "areaCode");
    if areaCode.Some? {
      filters := filters.(areaCode := areaCode);
    }
    assert filters == ParseFilter(p).(contentTypeIds := None, arrange := Some(DefaultArrange), pageNo := Some(DefaultPageNo), numOfRows := Some(DefaultNumOfRows), petFriendly := None, petSizes := None, keyword := None);
    if "contentTypeIds" in p && Truthy(p["contentTypeIds"]) {
      filters := filters.(contentTypeIds := Some(Seqs.Filter(NonEmpty, ListPieces(p["contentTypeIds"]))));
    }
    assert filters == ParseFilter(p).(arrange := Some(DefaultArrange), pageNo := Some(DefaultPageNo), numOfRows := Some(DefaultNumOfRows), petFriendly := None, petSizes := None, keyword := None);
    var arrange := StringParam(p, "arrange");
    if arrange.Some? && ArrangeOfCode(arrange.value).Some? {
      filters := filters.(arrange := ArrangeOfCode(arrange.value));
    }
    assert filters == ParseFilter(p).(pageNo := Some(DefaultPageNo), numOfRows := Some(DefaultNumOfRows), petFriendly := None, petSizes := None, keyword := None);
    var pageNo := StringParam(p, "pageNo");
    if pageNo.Some? {
      var n := ParseInt(pageNo.value);
      if n.Some? && n.value > 0 {
        filters := filters.(pageNo := n);
      }
    }
    assert filters == ParseFilter(p).(numOfRows := Some(DefaultNumOfRows), petFriendly := None, petSizes := None, keyword := None);
    var numOfRows := StringParam(p, "numOfRows");
    if numOfRows.Some? {
      var n := ParseInt(numOfRows.value);
      if n.Some? && n.value > 0 {
        filters := filters.(numOfRows := n);
      }
    }
    assert filters == ParseFilter(p).(petFriendly := None, petSizes := None, keyword := None);
    var petFriendly := StringParam(p, "petFriendly");
    if petFriendly.Some? {
      filters := filters.(petFriendly := Some(petFriendly.value == "true"));
    }
    assert filters == ParseFilter(p).(petSizes := None, keyword := None);
    if "petSizes" in p && Truthy(p["petSizes"]) {
      var validSizes := SizesOfNames(ListPieces(p["petSizes"]));
      if |validSizes| > 0 {
        filters := filters.(petSizes := Some(validSizes));
      }
    }
    assert filters == ParseFilter(p).(keyword := None);
    var keyword := StringParam(p, "keyword");
    if keyword.Some? {
      filters := filters.(keyword := Some(Trim(keyword.value)));
    }
  }

  /** The keys `filterToSearchParams` may write. */
  const ParamKeys: set<string> :=
    {"areaCode", "contentTypeIds", "arrange", "pageNo", "numOfRows", "petFriendly", "petSizes", "keyword"}

  // The value written for each key, or `None` when the field is absent, empty or at its default.

  function AreaCodeParam(f: FilterState): Option<string> {
    if f.areaCode.Some? && f.areaCode.value != "" then f.areaCode else None
  }

  function ContentTypeIdsParam(f: FilterState): Option<string> {
    if f.contentTypeIds.Some? && |f.contentTypeIds.value| > 0 then Some(Join(f.contentTypeIds.value, ',')) else None
  }

  function ArrangeParam(f: FilterState): Option<string> {
    if f.arrange.Some? && f.arrange.value != DefaultArrange then Some(ArrangeCode(f.arrange.value)) else None
  }

  /** A page number or size is written when it is truthy (not 0) and not its default. */
  function NumberParam(n: Option<int>, default: int): Option<string> {
    if n.Some? && n.value != 0 && n.value != default then Some(IntToString(n.value)) else None
  }

  function PetFriendlyParam(f: FilterState): Option<string> {
    if f.petFriendly == Some(true) then Some("true") else None
  }

  function PetSizesParam(f: FilterState): Option<string> {
    if f.petSizes.Some? && |f.petSizes.value| > 0 then Some(Join(Seqs.Map(PetSizeName, f.petSizes.value), ',')) else None
  }

  function KeywordParam(f: FilterState): Option<string> {
    if f.keyword.Some? && Trim(f.keyword.value) != "" then Some(Trim(f.keyword.value)) else None
  }

  /**
   * The record `filterToSearchParams` returns. It only ever holds the eight
   * field names, so it is kept as one optional string per name; `AsMap` is the
   * record as a key-value map.
   */
  datatype ParamRecord = ParamRecord(
    areaCode: Option<string>,
    contentTypeIds: Option<string>,
    arrange: Option<string>,
    pageNo: Option<string>,
    numOfRows: Option<string>,
    petFriendly: Option<string>,
    petSizes: Option<string>,
    keyword: Option<string>)

  /** The empty record `{}`. */
  const NoParams := ParamRecord(None, None, None, None, None, None, None, None)

  /** The value the record holds under `key`, if any. */
  function Entry(r: ParamRecord, key: string): Option<string> {
    if key == "areaCode" then r.areaCode
    else if key == "contentTypeIds" then r.contentTypeIds
    else if key == "arrange" then r.arrange
    else if key == "pageNo" then r.pageNo
    else if key == "numOfRows" then r.numOfRows
    else if key == "petFriendly" then r.petFriendly
    else if key == "petSizes" then r.petSizes
    else if key == "keyword" then r.keyword
    else None
  }

  /** The record as a map from key to value: exactly the keys it holds, with their values. */
  function AsMap(r: ParamRecord): (m: map<string, string>)
    ensures m.Keys <= ParamKeys
    ensures forall key :: key in ParamKeys ==> (key in m <==> Entry(r, key).Some?)
    ensures forall key :: key in m ==> m[key] == Entry(r, key).value
  {
    map key | key in ParamKeys && Entry(r, key).Some? :: Entry(r, key).value
  }

  /** `m` holds `key` exactly when there is a value `v` to write, and then holds `v`. */
  predicate Writes(m: map<string, string>, key: string, v: Option<string>) {
    (key in m <==> v.Some?) && (key in m ==> m[key] == v.value)
  }

  /**
   * The record `filterToSearchParams` returns: one entry per field that is set,
   * truthy and not at its default; a keyword is written only when it is not blank.
   */
  function ToParams(f: FilterState): (r: ParamRecord)
    ensures r.areaCode.None? <==> f.areaCode == None || f.areaCode == Some("")
    ensures r.contentTypeIds.None? <==> f.contentTypeIds == None || f.contentTypeIds == Some([])
    ensures r.arrange.None? <==> f.arrange == None || f.arrange == Some(DefaultArrange)
    ensures r.pageNo.None? <==> f.pageNo == None || f.pageNo == Some(0) || f.pageNo == Some(DefaultPageNo)
    ensures r.numOfRows.None? <==> f.numOfRows == None || f.numOfRows == Some(0) || f.numOfRows == Some(DefaultNumOfRows)
    ensures r.petFriendly.None? <==> f.petFriendly != Some(true)
    ensures r.petSizes.None? <==> f.petSizes == None || f.petSizes == Some([])
    ensures r.keyword.None? <==> f.keyword == None || Trim(f.keyword.value) == ""
  {
    ParamRecord(
      AreaCodeParam(f),
      ContentTypeIdsParam(f),
      ArrangeParam(f),
      NumberParam(f.pageNo, DefaultPageNo),
      NumberParam(f.numOfRows, DefaultNumOfRows),
      PetFriendlyParam(f),
      PetSizesParam(f),
      KeywordParam(f))
  }

  /**
   * `filterToSearchParams`: start from the empty record and set each key whose
   * field is set and not at its default, one key after the other.
   */
  method FilterToSearchParams(filter: FilterState) returns (params: ParamRecord)
    ensures params == ToParams(filter)
  {
    var f := filter;
    params := NoParams;
    if f.areaCode.Some? && f.areaCode.value != "" {
      params := params.(areaCode := f.areaCode);
    }
    assert params == ToParams(f).(contentTypeIds := None, arrange := None, pageNo := None, numOfRows := None, petFriendly := None, petSizes := None, keyword := None);
    if f.contentTypeIds.Some? && |f.contentTypeIds.value| > 0 {
      params := params.(contentTypeIds := Some(Join(f.contentTypeIds.value, ',')));
    }
    assert params == ToParams(f).(arrange := None, pageNo := None, numOfRows := None, petFriendly := None, petSizes := None, keyword := None);
    if f.arrange.Some? && f.arrange.value != DefaultArrange {
      params := params.(arrange := Some(ArrangeCode(f.arrange.value)));
    }
    assert params == ToParams(f).(pageNo := None, numOfRows := None, petFriendly := None, petSizes := None, keyword := None);
    if f.pageNo.Some? && f.pageNo.value != 0 && f.pageNo.value != 1 {
      params := params.(pageNo := Some(IntToString(f.pageNo.value)));
    }
    assert params == ToParams(f).(numOfRows := None, petFriendly := None, petSizes := None, keyword := None);
    if f.numOfRows.Some? && f.numOfRows.value != 0 && f.numOfRows.value != DefaultNumOfRows {
      params := params.(numOfRows := Some(IntToString(f.numOfRows.value)));
    }
    assert params == ToParams(f).(petFriendly := None, petSizes := None, keyword := None);
    if f.petFriendly == Some(true) {
      params := params.(petFriendly := Some("true"));
    }
    assert params == ToParams(f).(petSizes := None, keyword := None);
    if f.petSizes.Some? && |f.petSizes.value| > 0 {
      params := params.(petSizes := Some(Join(Seqs.Map(PetSizeName, f.petSizes.value), ',')));
    }
    assert params == ToParams(f).(keyword := None);
    if f.keyword.Some? && Trim(f.keyword.value) != "" {
      params := params.(keyword := Some(Trim(f.keyword.value)));
    }
  }

  /** A record of plain string parameters, as the page reads them from the URL. */
  function Lift(m: map<string, string>): (p: SearchParams)
    ensures p.Keys == m.Keys
    ensures forall k :: k in m ==> p[k] == Single(m[k])
  {
    map k | k in m :: Single(m[k])
  }

  /** No parameters at all: exactly the defaults. */
  lemma ParseEmpty()
    ensures ParseFilter(map[]) == DefaultFilterState
  {
  }

  /** The defaults serialise to the empty record: every default and every empty value is left out. */
  lemma SerializeDefaults()
    ensures ToParams(DefaultFilterState) == NoParams
    ensures ToParams(FilterState(Some(""), Some([]), None, None, None, Some(false), Some([]), Some(" "))) == NoParams
    ensures AsMap(NoParams) == map[]
  {
    assert Trim(" ") == "";
  }

  /** The parameters the page reads back once the state is written to the URL. */
  function Reload(f: FilterState): SearchParams {
    Lift(AsMap(ToParams(f)))
  }

  /**
   * Whatever the parameters, the parsed state has a sort order and positive page
   * number and page size, its type ids are non-empty, a size list is never
   * empty, and the keyword is trimmed.
   */
  lemma ParseShape(p: SearchParams)
    ensures ParseFilter(p).arrange.Some?
    ensures ParseFilter(p).pageNo.Some? && ParseFilter(p).pageNo.value > 0
    ensures ParseFilter(p).numOfRows.Some? && ParseFilter(p).numOfRows.value > 0
    ensures ParseFilter(p).contentTypeIds.Some? ==> forall id :: id in ParseFilter(p).contentTypeIds.value ==> id != ""
    ensures ParseFilter(p).keyword.Some? ==> IsTrimmed(ParseFilter(p).keyword.value)
    ensures ParseFilter(p).petSizes != Some([])
  {
    if ParseFilter(p).keyword.Some? {
      TrimIsTrimmed(StringParam(p, "keyword").value);
    }
  }

  /** A type-id list given as an empty string is ignored (it is falsy), but `","` gives the empty list. */
  lemma EmptyListParameters()
    ensures ParseFilter(map["contentTypeIds" := Single("")]).contentTypeIds == None
    ensures ParseFilter(map["contentTypeIds" := Single(",")]).contentTypeIds == Some([])
    ensures ParseFilter(map["contentTypeIds" := Multiple([])]).contentTypeIds == Some([])
  {
    assert Split(",", ',') == ["", ""];
    assert Seqs.Map(Trim, ["", ""]) == ["", ""];
  }

  /** What a serialised-then-parsed state must look like to come back unchanged. */
  predicate Normalized(f: FilterState) {
    && f.areaCode != Some("")
    && (f.contentTypeIds.Some? ==>
          |f.contentTypeIds.value| > 0 &&
          forall i :: 0 <= i < |f.contentTypeIds.value| ==>
            var id := f.contentTypeIds.value[i]; id != "" && ',' !in id && IsTrimmed(id))
    && f.arrange.Some?
    && f.pageNo.Some? && f.pageNo.value > 0
    && f.numOfRows.Some? && f.numOfRows.value > 0
    && f.petFriendly != Some(false)
    && f.petSizes != Some([])
    && (f.keyword.Some? ==> f.keyword.value != "" && IsTrimmed(f.keyword.value))
  }

  lemma MapTrimOfTrimmed(pieces: seq<string>)
    requires forall i :: 0 <= i < |pieces| ==> IsTrimmed(pieces[i])
    ensures Seqs.Map(Trim, pieces) == pieces
  {
    forall i | 0 <= i < |pieces| ensures Trim(pieces[i]) == pieces[i] {
      TrimOfTrimmed(pieces[i]);
    }
  }

  lemma {:induction false} SizesOfSizeNames(sizes: seq<PetSize>)
    ensures SizesOfNames(Seqs.Map(PetSizeName, sizes)) == sizes
    decreases |sizes|
  {
    if sizes != [] {
      SizesOfSizeNames(sizes[1..]);
      assert Seqs.Map(PetSizeName, sizes)[1..] == Seqs.Map(PetSizeName, sizes[1..]);
    }
  }

  lemma JoinNonEmpty(parts: seq<string>, sep: char)
    requires |parts| > 0 && parts[0] != ""
    ensures Join(parts, sep) != ""
  {
  }

  lemma RoundTripContentTypeIds(f: FilterState)
    requires Normalized(f)
    ensures ParseContentTypeIds(Reload(f)) == f.contentTypeIds
  {
    if f.contentTypeIds.Some? {
      var ids := f.contentTypeIds.value;
      JoinNonEmpty(ids, ',');
      SplitJoin(ids, ',');
      MapTrimOfTrimmed(ids);
      Seqs.FilterAll(NonEmpty, ids);
    }
  }

  /** Joining the names of a list of sizes and splitting the result again gives the sizes back. */
  lemma SizeListRoundTrip(sizes: seq<PetSize>)
    requires sizes != []
    ensures var joined := Join(Seqs.Map(PetSizeName, sizes), ',');
      joined != "" && SizesOfNames(SplitList(joined)) == sizes
  {
    var names := Seqs.Map(PetSizeName, sizes);
    forall i | 0 <= i < |names| ensures ',' !in names[i] && IsTrimmed(names[i]) {
      assert names[i] == PetSizeName(sizes[i]);
    }
    assert names[0] != "";
    JoinNonEmpty(names, ',');
    SplitJoin(names, ',');
    MapTrimOfTrimmed(names);
    SizesOfSizeNames(sizes);
  }

  lemma RoundTripPetSizes(f: FilterState)
    requires Normalized(f)
    ensures ParsePetSizes(Reload(f)) == f.petSizes
  {
    assert Entry(ToParams(f), "petSizes") == PetSizesParam(f);
    if f.petSizes.Some? {
      SizeListRoundTrip(f.petSizes.value);
    }
  }

  lemma RoundTripPositive(n: Option<int>, key: string, default: int, m: map<string, string>)
    requires n.Some? && n.value > 0 && default > 0
    requires Writes(m, key, NumberParam(n, default))
    ensures ParsePositive(Lift(m), key, default) == n
  {
    if n.value != default { ParseIntToString(n.value); }
  }

  /** The record written for `f`, as a map, holds each page key exactly when it has a value to write. */
  lemma WritesPages(f: FilterState)
    ensures Writes(AsMap(ToParams(f)), "pageNo", NumberParam(f.pageNo, DefaultPageNo))
    ensures Writes(AsMap(ToParams(f)), "numOfRows", NumberParam(f.numOfRows, DefaultNumOfRows))
  {
    assert Entry(ToParams(f), "pageNo") == NumberParam(f.pageNo, DefaultPageNo);
    assert Entry(ToParams(f), "numOfRows") == NumberParam(f.numOfRows, DefaultNumOfRows);
  }

  lemma RoundTripKeyword(f: FilterState)
    requires Normalized(f)
    ensures ParseKeyword(Reload(f)) == f.keyword
  {
    if f.keyword.Some? { TrimOfTrimmed(f.keyword.value); }
  }

  lemma RoundTripAreaCode(f: FilterState)
    requires Normalized(f)
    ensures ParseAreaCode(Reload(f)) == f.areaCode
  {
    assert Entry(ToParams(f), "areaCode") == AreaCodeParam(f);
  }

  lemma RoundTripPetFriendly(f: FilterState)
    requires Normalized(f)
    ensures ParsePetFriendly(Reload(f)) == f.petFriendly
  {
    if f.petFriendly.Some? {
      assert f.petFriendly.value;
      assert PetFriendlyParam(f) == Some("true");
    }
  }

  lemma RoundTripArrange(f: FilterState)
    requires Normalized(f)
    ensures ParseArrange(Reload(f)) == f.arrange
  {
  }

  /**
   * Serialising a normalised state and parsing the resulting parameters gives
   * the state back.
   */
  lemma RoundTrip(f: FilterState)
    requires Normalized(f)
    ensures ParseFilter(Reload(f)) == f
  {
    var m := AsMap(ToParams(f));
    WritesPages(f);
    RoundTripContentTypeIds(f);
    RoundTripPetSizes(f);
    RoundTripPositive(f.pageNo, "pageNo", DefaultPageNo, m);
    RoundTripPositive(f.numOfRows, "numOfRows", DefaultNumOfRows, m);
    RoundTripKeyword(f);
    RoundTripArrange(f);
    RoundTripAreaCode(f);
    RoundTripPetFriendly(f);
  }
}

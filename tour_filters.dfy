/**
 * The filter panel's event handlers: each takes the current filter state and
 * an event and returns the next state. Every handler but reset sends the list
 * back to page one.
 */
module TourFilters {
  import opened Wrappers
  import opened Text
  import opened TourTypes
  import opened PetSizes
  import opened Filters
  import Seqs

  /**
   * `r` is `s` with every occurrence of `x` deleted: a subsequence of `s` that
   * holds no `x` and every other element as often as `s` does.
   */
  ghost predicate RemovedFrom<T(!new)>(r: seq<T>, s: seq<T>, x: T) {
    Seqs.IsSubsequence(r, s) && multiset(r)[x] == 0 &&
    forall y {:trigger multiset(r)[y]} :: y != x ==> multiset(r)[y] == multiset(s)[y]
  }

  /** `list.filter(y => y !== x)`: every occurrence of `x` removed, the rest in order. */
  function Remove<T(==,!new)>(s: seq<T>, x: T): (r: seq<T>)
    ensures forall y :: y in r <==> y in s && y != x
    ensures RemovedFrom(r, s, x)
  {
    Seqs.Filter(y => y != x, s)
  }

  /** `RemovedFrom` pins the result down: `Remove(s, x)` is the only list it allows. */
  lemma RemovedFromUnique<T(!new)>(r: seq<T>, s: seq<T>, x: T)
    requires RemovedFrom(r, s, x)
    ensures r == Remove(s, x)
  {
    var p := y => y != x;
    forall y ensures multiset(r)[y] == if p(y) then multiset(s)[y] else 0 {
    }
    Seqs.FilterUnique(p, s, r);
  }

  /** Remove `x` if the list has it, otherwise append it at the end. */
  function Toggle<T(==,!new)>(s: seq<T>, x: T): (r: seq<T>)
    ensures x in r <==> x !in s
    ensures forall y :: y != x ==> (y in r <==> y in s)
    ensures x !in s ==> r == s + [x]
    ensures x in s ==> RemovedFrom(r, s, x)
  {
    if x in s then Remove(s, x) else s + [x]
  }

  /** A selection list as the state keeps it: an empty list becomes "no selection". */
  function NonEmptyOrNone<T>(s: seq<T>): (r: Option<seq<T>>)
    ensures r == None <==> s == []
    ensures r.Some? ==> r.value == s
  {
    if |s| > 0 then Some(s) else None
  }

  /** The list of a selection, an absent selection read as `[]`. */
  function Selected<T>(o: Option<seq<T>>): seq<T> {
    if o.Some? then o.value else []
  }

  /** `handleAreaChange`: `"all"` clears the area, any other value selects it. */
  function HandleAreaChange(filters: FilterState, value: string): (r: FilterState)
    ensures r.areaCode == None <==> value == "all"
    ensures r.areaCode.Some? ==> r.areaCode.value == value
    ensures r.pageNo == Some(1)
    ensures r.(areaCode := filters.areaCode, pageNo := filters.pageNo) == filters
  {
    filters.(areaCode := if value == "all" then None else Some(value), pageNo := Some(1))
  }

  /** `handleContentTypeToggle`. */
  function HandleContentTypeToggle(filters: FilterState, contentTypeId: string): (r: FilterState)
    ensures r.pageNo == Some(1)
    ensures r.(contentTypeIds := filters.contentTypeIds, pageNo := filters.pageNo) == filters
    ensures r.contentTypeIds != Some([])
    ensures contentTypeId in Selected(r.contentTypeIds) <==> contentTypeId !in Selected(filters.contentTypeIds)
    ensures forall id :: id != contentTypeId ==>
      (id in Selected(r.contentTypeIds) <==> id in Selected(filters.contentTypeIds))
    ensures contentTypeId !in Selected(filters.contentTypeIds) ==>
      Selected(r.contentTypeIds) == Selected(filters.contentTypeIds) + [contentTypeId]
    ensures contentTypeId in Selected(filters.contentTypeIds) ==>
      RemovedFrom(Selected(r.contentTypeIds), Selected(filters.contentTypeIds), contentTypeId)
  {
    var currentIds := Selected(filters.contentTypeIds);
    filters.(contentTypeIds := NonEmptyOrNone(Toggle(currentIds, contentTypeId)), pageNo := Some(1))
  }

  /** `handleArrangeChange`: the select offers only the sort codes, so the value is an `Arrange`. */
  function HandleArrangeChange(filters: FilterState, value: Arrange): (r: FilterState)
    ensures r.arrange == Some(value) && r.pageNo == Some(1)
    ensures r.(arrange := filters.arrange, pageNo := filters.pageNo) == filters
  {
    filters.(arrange := Some(value), pageNo := Some(1))
  }

  /** `handleReset`: the defaults, whatever the state was. */
  function HandleReset(filters: FilterState): (r: FilterState)
    ensures r == DefaultFilterState
  {
    DefaultFilterState
  }

  /** `handleRemoveContentType`: drop every occurrence of the id; an emptied list becomes no selection. */
  function HandleRemoveContentType(filters: FilterState, contentTypeId: string): (r: FilterState)
    ensures r.pageNo == Some(1)
    ensures r.(contentTypeIds := filters.contentTypeIds, pageNo := filters.pageNo) == filters
    ensures r.contentTypeIds != Some([])
    ensures forall id :: id in Selected(r.contentTypeIds) <==>
      id in Selected(filters.contentTypeIds) && id != contentTypeId
    ensures RemovedFrom(Selected(r.contentTypeIds), Selected(filters.contentTypeIds), contentTypeId)
  {
    var currentIds := Selected(filters.contentTypeIds);
    filters.(contentTypeIds := NonEmptyOrNone(Remove(currentIds, contentTypeId)), pageNo := Some(1))
  }

  /** The selection is exactly the eight types: eight entries, each type among them. */
  predicate IsAllSelected(currentIds: Option<seq<string>>) {
    currentIds.Some? && |currentIds.value| == |ContentTypes| &&
    forall i :: 0 <= i < |ContentTypes| ==> ContentTypes[i] in currentIds.value
  }

  /** `handleSelectAllContentTypes`: all eight types, or no selection when all eight already are. */
  function HandleSelectAllContentTypes(filters: FilterState): (r: FilterState)
    ensures r.pageNo == Some(1)
    ensures r.(contentTypeIds := filters.contentTypeIds, pageNo := filters.pageNo) == filters
    ensures IsAllSelected(filters.contentTypeIds) ==> r.contentTypeIds == None
    ensures !IsAllSelected(filters.contentTypeIds) ==> r.contentTypeIds == Some(ContentTypes)
  {
    filters.(contentTypeIds := if IsAllSelected(filters.contentTypeIds) then None else Some(ContentTypes),
             pageNo := Some(1))
  }

  /** JavaScript truthiness of the optional flag. */
  predicate Flag(b: Option<bool>) { b == Some(true) }

  /**
   * `handlePetFriendlyToggle`: the flag is negated; turning it on clears the
   * size selection and turning it off keeps it.
   */
  function HandlePetFriendlyToggle(filters: FilterState): (r: FilterState)
    ensures r.petFriendly == Some(!Flag(filters.petFriendly))
    ensures !Flag(filters.petFriendly) ==> r.petSizes == None
    ensures Flag(filters.petFriendly) ==> r.petSizes == filters.petSizes
    ensures r.pageNo == Some(1)
    ensures r.(petFriendly := filters.petFriendly, petSizes := filters.petSizes, pageNo := filters.pageNo) == filters
  {
    var turningOn := !Flag(filters.petFriendly);
    filters.(petFriendly := Some(turningOn), petSizes := if turningOn then None else filters.petSizes, pageNo := Some(1))
  }

  /** `handlePetSizeToggle`: the same add-or-remove as the type toggle, on the size list. */
  function HandlePetSizeToggle(filters: FilterState, size: PetSize): (r: FilterState)
    ensures r.pageNo == Some(1)
    ensures r.(petSizes := filters.petSizes, pageNo := filters.pageNo) == filters
    ensures r.petSizes != Some([])
    ensures size in Selected(r.petSizes) <==> size !in Selected(filters.petSizes)
    ensures forall s :: s != size ==> (s in Selected(r.petSizes) <==> s in Selected(filters.petSizes))
    ensures size !in Selected(filters.petSizes) ==> Selected(r.petSizes) == Selected(filters.petSizes) + [size]
    ensures size in Selected(filters.petSizes) ==> RemovedFrom(Selected(r.petSizes), Selected(filters.petSizes), size)
  {
    var currentSizes := Selected(filters.petSizes);
    filters.(petSizes := NonEmptyOrNone(Toggle(currentSizes, size)), pageNo := Some(1))
  }

  /** The events of the filter panel. */
  datatype FilterEvent =
    | AreaChange(value: string)
    | ContentTypeToggle(contentTypeId: string)
    | ArrangeChange(arrange: Arrange)
    | Reset
    | RemoveContentType(removed: string)
    | SelectAllContentTypes
    | PetFriendlyToggle
    | PetSizeToggle(size: PetSize)

  /** The state after one event. */
  function Step(filters: FilterState, e: FilterEvent): FilterState {
    match e
    case AreaChange(value) => HandleAreaChange(filters, value)
    case ContentTypeToggle(id) => HandleContentTypeToggle(filters, id)
    case ArrangeChange(a) => HandleArrangeChange(filters, a)
    case Reset => HandleReset(filters)
    case RemoveContentType(id) => HandleRemoveContentType(filters, id)
    case SelectAllContentTypes => HandleSelectAllContentTypes(filters)
    case PetFriendlyToggle => HandlePetFriendlyToggle(filters)
    case PetSizeToggle(size) => HandlePetSizeToggle(filters, size)
  }

  /** The state after a run of events, applied left to right. */
  function Run(filters: FilterState, events: seq<FilterEvent>): FilterState
    decreases |events|
  {
    if events == [] then filters else Run(Step(filters, events[0]), events[1..])
  }

  /** Whatever the event, the next state shows the first page. */
  lemma StepShowsFirstPage(filters: FilterState, e: FilterEvent)
    ensures Step(filters, e).pageNo == Some(1)
  {
  }

  /** After any non-empty run of events the first page is shown. */
  lemma {:induction false} RunShowsFirstPage(filters: FilterState, events: seq<FilterEvent>)
    requires events != []
    ensures Run(filters, events).pageNo == Some(1)
    decreases |events|
  {
    if |events| == 1 {
      StepShowsFirstPage(filters, events[0]);
    } else {
      RunShowsFirstPage(Step(filters, events[0]), events[1..]);
    }
  }

  /** Toggling an id that is not in the list and then toggling it again gives the list back. */
  lemma ToggleTwice<T(!new)>(s: seq<T>, x: T)
    requires x !in s
    ensures Toggle(Toggle(s, x), x) == s
  {
    var t := s + [x];
    Seqs.FilterAppend(y => y != x, s, [x]);
    Seqs.FilterAll(y => y != x, s);
    assert Seqs.Filter(y => y != x, [x]) == [];
  }

  /** Removing twice is removing once. */
  lemma RemoveIdempotent<T(!new)>(s: seq<T>, x: T)
    ensures Remove(Remove(s, x), x) == Remove(s, x)
  {
    Seqs.FilterAll(y => y != x, Remove(s, x));
  }

  /**
   * Toggling a type that is not selected on and off again restores the
   * selection; only an explicitly empty selection comes back as no selection.
   */
  lemma ContentTypeToggleTwice(filters: FilterState, contentTypeId: string)
    requires contentTypeId !in Selected(filters.contentTypeIds)
    requires filters.contentTypeIds != Some([])
    ensures HandleContentTypeToggle(HandleContentTypeToggle(filters, contentTypeId), contentTypeId)
      == filters.(pageNo := Some(1))
  {
    var s := Selected(filters.contentTypeIds);
    ToggleTwice(s, contentTypeId);
  }

  /** The same for sizes. */
  lemma PetSizeToggleTwice(filters: FilterState, size: PetSize)
    requires size !in Selected(filters.petSizes)
    requires filters.petSizes != Some([])
    ensures HandlePetSizeToggle(HandlePetSizeToggle(filters, size), size) == filters.(pageNo := Some(1))
  {
    ToggleTwice(Selected(filters.petSizes), size);
  }

  /** Removing a type twice is the same as removing it once. */
  lemma RemoveContentTypeTwice(filters: FilterState, contentTypeId: string)
    ensures HandleRemoveContentType(HandleRemoveContentType(filters, contentTypeId), contentTypeId)
      == HandleRemoveContentType(filters, contentTypeId)
  {
    RemoveIdempotent(Selected(filters.contentTypeIds), contentTypeId);
  }

  /** The eight type ids are distinct strings. */
  lemma ContentTypesDistinct()
    ensures forall i, j :: 0 <= i < j < |ContentTypes| ==> ContentTypes[i] != ContentTypes[j]
  {
  }

  /** "Select all" twice from a partial selection: all eight, then none. */
  lemma SelectAllTwice(filters: FilterState)
    requires !IsAllSelected(filters.contentTypeIds)
    ensures HandleSelectAllContentTypes(filters).contentTypeIds == Some(ContentTypes)
    ensures HandleSelectAllContentTypes(HandleSelectAllContentTypes(filters)).contentTypeIds == None
  {
  }

  /**
   * "All selected" means the selection is the eight types in some order, each
   * exactly once.
   */
  lemma AllSelectedIsPermutation(ids: seq<string>)
    ensures IsAllSelected(Some(ids)) <==> multiset(ids) == multiset(ContentTypes)
  {
    if IsAllSelected(Some(ids)) {
      AllSelectedCounts(ids);
    }
    if multiset(ids) == multiset(ContentTypes) {
      assert |ids| == |multiset(ids)| == |multiset(ContentTypes)| == |ContentTypes|;
      forall i | 0 <= i < |ContentTypes| ensures ContentTypes[i] in ids {
        assert ContentTypes[i] in multiset(ContentTypes);
      }
    }
  }

  lemma AllSelectedCounts(ids: seq<string>)
    requires IsAllSelected(Some(ids))
    ensures multiset(ids) == multiset(ContentTypes)
  {
    ContentTypesDistinct();
    SubMultiset(ContentTypes, ids);
    assert |multiset(ids)| == |ids| == |ContentTypes| == |multiset(ContentTypes)|;
    SameSizeSubMultiset(multiset(ContentTypes), multiset(ids));
  }

  /** Distinct elements that all occur in `t` form a sub-multiset of `t`. */
  lemma {:induction false} SubMultiset<T>(s: seq<T>, t: seq<T>)
    requires forall a, b :: 0 <= a < b < |s| ==> s[a] != s[b]
    requires forall i :: 0 <= i < |s| ==> s[i] in t
    ensures multiset(s) <= multiset(t)
    decreases |s|
  {
    if s != [] {
      var init := s[..|s| - 1];
      var last := s[|s| - 1];
      assert s == init + [last];
      SubMultiset(init, t);
      assert last !in init;
      assert multiset(init)[last] == 0;
    }
  }

  /** A sub-multiset as large as the whole is the whole. */
  lemma SameSizeSubMultiset<T>(a: multiset<T>, b: multiset<T>)
    requires a <= b && |a| == |b|
    ensures a == b
  {
    var d := b - a;
    assert b == a + d;
    assert |d| == 0;
  }

  /** A type id the URL can carry: non-empty, trimmed and comma-free. */
  predicate WellFormedId(id: string) {
    id != "" && ',' !in id && IsTrimmed(id)
  }

  /** The events whose arguments the URL can carry: an area value is never empty, a toggled id is well formed. */
  predicate WellFormedEvent(e: FilterEvent) {
    match e
    case AreaChange(value) => value != ""
    case ContentTypeToggle(id) => WellFormedId(id)
    case _ => true
  }

  lemma ContentTypesWellFormed()
    ensures forall i :: 0 <= i < |ContentTypes| ==> WellFormedId(ContentTypes[i])
  {
    forall i | 0 <= i < |ContentTypes| ensures WellFormedId(ContentTypes[i]) {
      var id := ContentTypes[i];
      assert |id| == 2 && !IsWhitespace(id[0]) && !IsWhitespace(id[1]);
    }
  }

  /**
   * The handlers never produce a state the URL cannot carry, except that
   * switching "pet friendly" off leaves `false`, which the URL records as unset.
   */
  lemma StepKeepsNormalized(filters: FilterState, e: FilterEvent)
    requires Normalized(filters) && WellFormedEvent(e)
    ensures !(e.PetFriendlyToggle? && Flag(filters.petFriendly)) ==> Normalized(Step(filters, e))
    ensures e.PetFriendlyToggle? && Flag(filters.petFriendly) ==>
      Normalized(Step(filters, e).(petFriendly := None))
  {
    match e
    case ContentTypeToggle(id) =>
      ContentTypeToggleKeepsNormalized(filters, id);
    case RemoveContentType(id) =>
      RemoveContentTypeKeepsNormalized(filters, id);
    case SelectAllContentTypes =>
      ContentTypesWellFormed();
    case Reset =>
      DefaultArrangeNormalized();
    case _ =>
  }

  lemma ContentTypeToggleKeepsNormalized(filters: FilterState, id: string)
    requires Normalized(filters) && WellFormedId(id)
    ensures Normalized(HandleContentTypeToggle(filters, id))
  {
    var s := Selected(filters.contentTypeIds);
    var t := Toggle(s, id);
    forall i | 0 <= i < |t| ensures WellFormedId(t[i]) {
      assert t[i] in s || t[i] == id;
      if t[i] in s {
        var k :| 0 <= k < |s| && s[k] == t[i];
      }
    }
  }

  lemma RemoveContentTypeKeepsNormalized(filters: FilterState, id: string)
    requires Normalized(filters)
    ensures Normalized(HandleRemoveContentType(filters, id))
  {
    var s := Selected(filters.contentTypeIds);
    var t := Remove(s, id);
    forall i | 0 <= i < |t| ensures WellFormedId(t[i]) {
      assert t[i] in s;
      var k :| 0 <= k < |s| && s[k] == t[i];
    }
  }

  lemma DefaultArrangeNormalized()
    ensures Normalized(DefaultFilterState)
  {
  }

  /**
   * A state whose flag is `false` reloads exactly like the same state with the
   * flag unset: both are falsy and neither is written to the URL.
   */
  lemma ReloadForgetsFalseFlag(filters: FilterState)
    requires filters.petFriendly == Some(false)
    ensures Reload(filters) == Reload(filters.(petFriendly := None))
  {
    assert ToParams(filters) == ToParams(filters.(petFriendly := None));
  }
}

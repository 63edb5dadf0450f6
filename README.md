# Pet-friendly tour listing — a Dafny model

This project models the core of a Next.js application that lists Korean tourist attractions from the Korea Tourism
Organization's Tour API (KorService2). Pet owners can narrow the list to places that accept pets of a given size. The
model covers six parts of the application:

- **Filter codec.** `FilterState` is read from the URL query parameters (with defaults and validation) and written
  back, and default values are left out when writing (`Filters`, in `filter.dfy`).
- **Pet-size classifier.** It maps the API's free-text size field (`소형`, `중형`, `대형`, `small`, …) to a size, and
  a size to its Korean label (`PetSizes`, in `pet_size.dfy`).
- **Filter panel handlers.** Each event of the panel maps the current filter state to the next one: area, content-type
  toggle, sort, reset, remove a type, select all, pet-friendly toggle and pet-size toggle (`TourFilters`, in
  `tour_filters.dfy`).
- **Listing page logic.** The page chooses between the keyword-search request and the area-list request. It also
  handles a search, and filters the loaded tours on the client: first by the selected content types, then by the
  pet information (`TourPageContent`, in `tour_page_content.dfy`).
- **Tour API client.** The client builds the service-key parameters and merges them with the request parameters like
  an object spread. It writes the query string and classifies responses and failures as `TourApiError`s. Calls go
  through a retry loop with exponential back-off, and the model covers the endpoint helpers for area lists, keyword
  search, details and pet details (`TourApi`, in `tour_api.dfy`).
- **Pet-information cache.** This is the process-wide map from content id to pet information. A collection call
  answers cache hits at once. It fetches the misses in batches of ten, and writes every result (a failure as `null`)
  into both the cache and the result map (`PetTourCache`, in `pet_tour_cache.dfy`).

Shared pieces:

- `Wrappers` holds `Option` and `Result`.
- `Seqs` holds the array methods `filter`, `map` and `slice`, plus subsequences and chunking.
- `Text` holds JavaScript string operations: `trim`, `toLowerCase`, `includes`, `split`, `join`, `parseInt` and
  `toString`.
- `TourTypes` holds the API records and the eight content-type ids.

Modelling conventions:

- **Inputs.** The environment variables, the network and the upstream lookups are parameters of the model.
  - `TourApi.Env` holds the two key variables.
  - Network calls are a function `net` from a request and an attempt number to an `Exchange`: a response or a fault.
  - The cache takes its lookup as a function `fetch` from content id to outcome (`PetTourCache.Upstream` builds it
    from `getDetailPetTour`).
- **Absent fields.** An optional field of a TypeScript object is an `Option`, and `None` stands for `undefined`.
- **Framework code.** React state and effects are left out. The model keeps the pure computations they feed:
  `useMemo` filters, handlers and the request choice.
- **Form of the code.** Imperative code is modelled imperatively:
  - the loop of `withRetry` and the query-string loop of `fetchTourApi` are methods;
  - the batch loop of `processInBatches` is a method;
  - the two field-by-field builders in `filter.ts` are methods;
  - the cache is a class, whose `entries` field the methods update.

  Each method is proved equal to a specification function, and the properties are proved about that function.

## Model

| member | source | states |
|---|---|---|
| Filters.ArrangeOfCode | lib/types/filter.ts:72-78 | only `A`–`D` are accepted as sort codes; each accepted code maps back to itself and every sort order's code is accepted |
| Filters.StringParam | lib/types/filter.ts:55 | a parameter is used as a string only when it is a non-empty single string |
| Filters.SizesOfNames | lib/types/filter.ts:110-112 | the valid sizes are exactly the pieces naming `small`, `medium` or `large`, in order, the others dropped |
| Filters.ParseFilter | lib/types/filter.ts:49-124 | a key absent from the parameters leaves its field at the default: no area, types, flag, sizes or keyword; sort `C`, page 1, 20 rows |
| Filters.ParseFilterFromSearchParams | lib/types/filter.ts:49-124 | the field-by-field builder starting from the defaults yields exactly the parsed state `ParseFilter` |
| Filters.ParseEmpty | lib/types/filter.ts:38-42 | parsing no parameters gives the defaults: sort `C`, page 1, 20 rows |
| Filters.ParseShape | lib/types/filter.ts:72-121 | any parsed state has a sort order, a positive page number and page size, non-empty type ids, a trimmed keyword and never an empty size list |
| Filters.EmptyListParameters | lib/types/filter.ts:60-69 | an empty type-id string is ignored (falsy); `","` and an empty array give the empty list |
| Filters.AsMap | lib/types/filter.ts:134-176 | the returned record holds exactly the keys that have a value, with those values |
| Filters.ToParams | lib/types/filter.ts:131-177 | a key is written exactly when its field is set and truthy and not the default: a non-empty area, a non-empty type list, a sort other than `C`, a page other than 0 and 1, a page size other than 0 and 20, the flag `true`, a non-empty size list, a keyword that is not blank |
| Filters.FilterToSearchParams | lib/types/filter.ts:131-177 | the key-by-key builder starting from `{}` yields exactly `ToParams` |
| Filters.SerializeDefaults | lib/types/filter.ts:147-174 | the defaults, and empty or blank values, serialise to the empty record |
| Filters.Lift | components/tour-page-content.tsx:44-46 | a record of strings read back from the URL is a parameter object with the same keys, each a single string |
| Filters.WritesPages | lib/types/filter.ts:152-159 | page number and page size are written exactly when set, non-zero and not the default |
| Filters.RoundTripPositive | lib/types/filter.ts:81-94 | a positive page number or size survives writing and re-parsing, the default being restored when it was left out |
| Filters.SizeListRoundTrip | lib/types/filter.ts:102-116 | joining size names with commas and splitting, trimming and validating again returns the sizes |
| Filters.RoundTripContentTypeIds | lib/types/filter.ts:59-69 | well-formed type ids survive `join(',')` then split, trim and filter |
| Filters.RoundTripPetSizes | lib/types/filter.ts:166-169 | a non-empty size list survives writing and re-parsing |
| Filters.RoundTripKeyword | lib/types/filter.ts:118-121 | a trimmed non-empty keyword survives writing and re-parsing |
| Filters.RoundTripAreaCode | lib/types/filter.ts:54-57 | a non-empty area code survives writing and re-parsing |
| Filters.RoundTripPetFriendly | lib/types/filter.ts:96-99 | the pet-friendly flag `true` survives writing and re-parsing |
| Filters.RoundTripArrange | lib/types/filter.ts:146-149 | a sort order survives writing (the default omitted) and re-parsing (the default restored) |
| Filters.RoundTrip | lib/types/filter.ts:49-177 | for every normalised state, parsing the written parameters gives the state back |
| Filters.SizesOfSizeNames | lib/types/filter.ts:110-114 | validating the names of a size list gives that list |
| PetSizes.PetSizeOfName | lib/types/filter.ts:111 | a string names a size exactly when it is `small`, `medium` or `large`, and then names that size |
| PetSizes.ParsePetSize | lib/utils/pet-size.ts:19-20 | an absent or empty size text classifies as no size |
| PetSizes.Normalize | lib/utils/pet-size.ts:22 | the text matched against is trimmed, lower-case and no longer than the input |
| PetSizes.ParsePetSizeCases | lib/utils/pet-size.ts:19-51 | the decision table in both directions and in its shortest form: small exactly when the normalised text contains `소` or `small`; otherwise medium exactly when it contains `중` or `medium`; otherwise large exactly when it contains `대` or `large` |
| PetSizes.NothingInEmpty | lib/utils/pet-size.ts:20-51 | the empty text contains none of the nine keywords |
| PetSizes.SmallTakesPrecedence | lib/utils/pet-size.ts:25-31 | any text whose normalised form contains `소` is small, whatever else it contains |
| PetSizes.LongKeywordsRedundant | lib/utils/pet-size.ts:26-46 | `소형`, `중형` and `대형` contain `소`, `중` and `대`, so the longer keywords never decide alone |
| PetSizes.NormalizeIdempotent | lib/utils/pet-size.ts:22 | trimming and lower-casing twice is doing it once |
| PetSizes.ParseIgnoresCaseAndPadding | lib/utils/pet-size.ts:22 | the classification of a text equals that of its normalised form |
| PetSizes.KoreanInjective | lib/utils/pet-size.ts:59-66 | distinct sizes have distinct Korean labels |
| PetSizes.PetSizeToKorean | lib/utils/pet-size.ts:59-66 | the classifier reads each size's Korean label back as that size |
| PetSizes.SmallLabelParses | lib/utils/pet-size.ts:19-31 | `소형` classifies as small |
| PetSizes.MediumLabelParses | lib/utils/pet-size.ts:19-40 | `중형` classifies as medium: it contains no small keyword |
| PetSizes.LargeLabelParses | lib/utils/pet-size.ts:19-49 | `대형` classifies as large: it contains no small or medium keyword |
| PetSizes.PetSizesToKorean | lib/utils/pet-size.ts:73-75 | the labels of a size list, one per size, in order |
| TourFilters.Remove | components/tour-filters.tsx:120 | every occurrence of the id is removed: the result is a subsequence of the list, holds no occurrence of the id, and holds every other element exactly as often as before |
| TourFilters.RemovedFromUnique | components/tour-filters.tsx:120 | those three facts determine the list: any list meeting them is the result of `filter` |
| TourFilters.Toggle | components/tour-filters.tsx:81-84 | the toggled element is present afterwards exactly when it was absent before; others unchanged; an absent one is appended at the end; a present one is removed with every occurrence, the rest kept in order and multiplicity |
| TourFilters.NonEmptyOrNone | components/tour-filters.tsx:97 | an empty list becomes no selection, any other list is kept |
| TourFilters.HandleAreaChange | components/tour-filters.tsx:70-77 | `"all"` clears the area, any other value selects it; page 1; every other field unchanged |
| TourFilters.HandleContentTypeToggle | components/tour-filters.tsx:80-101 | the toggled type is selected afterwards exactly when it was not; an unselected type is appended at the end; a selected one is removed with every occurrence, the other types kept in order and multiplicity; never an empty list; page 1; other fields unchanged |
| TourFilters.HandleArrangeChange | components/tour-filters.tsx:104-111 | the chosen sort is set; page 1; other fields unchanged |
| TourFilters.HandleReset | components/tour-filters.tsx:114-116 | the result is the default state whatever the input |
| TourFilters.HandleRemoveContentType | components/tour-filters.tsx:119-129 | the selection afterwards is the old one with every occurrence of the id deleted, the other types kept in order and multiplicity; never an empty list; page 1; other fields unchanged |
| TourFilters.HandleSelectAllContentTypes | components/tour-filters.tsx:132-150 | all eight types are selected, or the selection is cleared when all eight already were; page 1; other fields unchanged |
| TourFilters.HandlePetFriendlyToggle | components/tour-filters.tsx:153-161 | the flag is negated; turning it on clears the sizes, turning it off keeps them; page 1; other fields unchanged |
| TourFilters.HandlePetSizeToggle | components/tour-filters.tsx:164-176 | the toggled size is selected afterwards exactly when it was not; an unselected size is appended at the end; a selected one is removed with every occurrence, the other sizes kept in order and multiplicity; never an empty list; page 1; other fields unchanged |
| TourFilters.StepShowsFirstPage | components/tour-filters.tsx:70-176 | every event leads to page 1 |
| TourFilters.RunShowsFirstPage | components/tour-filters.tsx:70-176 | after any non-empty sequence of events page 1 is shown |
| TourFilters.ToggleTwice | components/tour-filters.tsx:81-84 | toggling an absent element twice gives the list back |
| TourFilters.RemoveIdempotent | components/tour-filters.tsx:120 | removing twice is removing once |
| TourFilters.ContentTypeToggleTwice | components/tour-filters.tsx:80-101 | toggling an unselected type on and off restores the state (on page 1) |
| TourFilters.PetSizeToggleTwice | components/tour-filters.tsx:164-176 | toggling an unselected size on and off restores the state (on page 1) |
| TourFilters.RemoveContentTypeTwice | components/tour-filters.tsx:119-129 | removing a type twice equals removing it once |
| TourFilters.SelectAllTwice | components/tour-filters.tsx:132-150 | from a partial selection, select-all selects the eight types and a second select-all clears them |
| TourFilters.AllSelectedIsPermutation | components/tour-filters.tsx:139-142 | the “all selected” test holds exactly when the selection is a permutation of the eight types |
| TourFilters.ContentTypesDistinct | lib/types/tour.ts:194-203 | the eight content-type ids are pairwise distinct |
| TourFilters.ContentTypesWellFormed | lib/types/tour.ts:194-203 | every content-type id is non-empty, comma-free and trimmed, so the URL can carry it |
| TourFilters.StepKeepsNormalized | components/tour-filters.tsx:70-176 | every handler keeps a state the URL round trip preserves, except turning the pet flag off, whose `false` the URL records as unset |
| TourFilters.ContentTypeToggleKeepsNormalized | components/tour-filters.tsx:80-101 | toggling a well-formed type id keeps a state the URL round trip preserves |
| TourFilters.RemoveContentTypeKeepsNormalized | components/tour-filters.tsx:119-129 | removing a type keeps a state the URL round trip preserves |
| TourFilters.DefaultArrangeNormalized | lib/types/filter.ts:38-42 | the defaults survive the URL round trip |
| TourFilters.ReloadForgetsFalseFlag | lib/types/filter.ts:162-164 | a `false` pet flag is written exactly like an unset one |
| TourPageContent.SingleContentType | components/tour-page-content.tsx:94-97 | a type id is sent exactly when exactly one type is selected, and it is that type |
| TourPageContent.SelectQuery | components/tour-page-content.tsx:89-118 | a blank keyword selects the area list, any other the keyword search with the trimmed keyword; either way the area is passed on, with the single selected type, the page size defaulted to 20 and the page to 1; the sort defaults to `C` |
| TourPageContent.LoadToursQuery | components/tour-page-content.tsx:89-118 | the query string sent carries the trimmed keyword, the area, the single type, the page size (default 20), the page (default 1) and the sort (default `C`) |
| TourPageContent.LoadTours | components/tour-page-content.tsx:82-129 | a request is always made (a non-blank keyword stays non-blank, so the search never answers empty unasked), one to three attempts, and a failure only after the third |
| TourPageContent.ParsedStateQuery | components/tour-page-content.tsx:44-46 | for a state parsed from the URL, the search is chosen exactly when a keyword is present, and the page defaults are never used |
| TourPageContent.OrDefaultTwice | components/tour-page-content.tsx:98-99 | applying the page default at the page and again in the API client changes nothing |
| TourPageContent.HandleSearch | components/tour-page-content.tsx:137-144 | an empty keyword becomes no keyword, any other is kept; page 1; other fields unchanged |
| TourPageContent.SearchRoutes | components/tour-page-content.tsx:137-144 | after a search the keyword search runs exactly when the keyword is not blank, with page 1 and the other options from the state |
| TourPageContent.SearchThroughUrl | components/tour-page-content.tsx:131-144 | after writing the URL and reading it back, the state is on page 1 with the trimmed keyword, or none for a blank one |
| TourPageContent.ContentTypeFiltered | components/tour-page-content.tsx:148-154 | with a selection, the tours of a selected type in order, each as often as loaded, and nothing else; all tours when no type is selected |
| TourPageContent.FilteredTours | components/tour-page-content.tsx:157-207 | the displayed tours are a subsequence of the loaded tours |
| TourPageContent.PetFilterSwitch | components/tour-page-content.tsx:157-165 | without the pet flag the type-filtered list is shown; while pet information is loading and none has arrived, nothing is shown |
| TourPageContent.PetFilterMembers | components/tour-page-content.tsx:167-200 | with the pet flag, a tour is shown exactly when it passes the type filter, has pet information, allows a leash-answer of `y`/`yes`/`가능`/`동반가능`, and (when sizes are selected) classifies as one of them |
| TourPageContent.PetPassesExplained | components/tour-page-content.tsx:168-199 | the per-tour pet test spelled out condition by condition |
| TourPageContent.PetFilterKeeps | components/tour-page-content.tsx:167 | a tour survives the pet filter exactly when it was in the list and passes the test |
| TourPageContent.MissingInfoHidden | components/tour-page-content.tsx:168-173 | with the pet flag, a tour without pet information (absent or `null`) is never shown |
| TourPageContent.SingleTypeFilterRedundant | components/tour-page-content.tsx:146-154 | when one type is selected and the API returned only that type, the client-side type filter keeps everything |
| TourApi.CommonParams | lib/api/tour-api.ts:52-71 | it fails exactly when the side's key variable is missing or empty, with the message naming that variable; otherwise the four parameters with the key as `serviceKey` |
| TourApi.Lookup | lib/api/tour-api.ts:116 | the value under a key is absent exactly when no entry has that key, and otherwise comes from an entry with it |
| TourApi.LookupAt | lib/api/tour-api.ts:116 | with distinct keys, each entry is what its key looks up |
| TourApi.Refresh | lib/api/tour-api.ts:116 | the spread keeps the position and key of every base entry |
| TourApi.Additions | lib/api/tour-api.ts:116 | the appended entries come from the override, each with a key the base lacks |
| TourApi.Overlay | lib/api/tour-api.ts:116 | the base keys keep their places at the front; after them come only override entries whose key the base lacks |
| TourApi.OverlayLookup | lib/api/tour-api.ts:116 | after `{ ...common, ...params }` a key holds the parameter's value if the parameters have it, otherwise the common value |
| TourApi.RefreshLookup | lib/api/tour-api.ts:116 | a base key keeps its place and takes the new value |
| TourApi.AdditionsLookup | lib/api/tour-api.ts:116 | keys new to the base are appended with their values |
| TourApi.OverlayDistinct | lib/api/tour-api.ts:116 | the spread of two objects has distinct keys |
| TourApi.BuildQuery | lib/api/tour-api.ts:119-124 | the query-string loop yields the defined entries, in order, each value stringified |
| TourApi.QueryEntries | lib/api/tour-api.ts:119-124 | at most one query entry per parameter; when every value is defined, every parameter in order, its value stringified |
| TourApi.QueryEntriesSnoc | lib/api/tour-api.ts:120-124 | one more parameter adds its stringified value to the query exactly when it is defined |
| TourApi.QueryEntriesAppend | lib/api/tour-api.ts:120-124 | the query of two parameter lists is the concatenation of their queries |
| TourApi.QueryLookup | lib/api/tour-api.ts:120-124 | a key is in the query exactly when its value is defined, and then holds the stringified value |
| TourApi.SentQuery | lib/api/tour-api.ts:115-124 | the sent value of a key is the request's, else the common one, dropped when undefined |
| TourApi.PreparedQuery | lib/api/tour-api.ts:115-126 | the same, for the request `fetchTourApi` prepares |
| TourApi.TryFetch | lib/api/tour-api.ts:139-172 | a page only from an OK, readable response with result code `0000`, whose data are its items; the block raises its own errors only for a response that arrived |
| TourApi.MapError | lib/api/tour-api.ts:173-185 | the client's own errors pass unchanged; an `AbortError` becomes exactly `Request timeout` with 408; any other fault becomes `Network error: ` followed by its message, or `Unknown error` for a value that is not an `Error`, with no status code |
| TourApi.Outcome | lib/api/tour-api.ts:139-185 | a call succeeds exactly when the response is OK, readable and has result code `0000` |
| TourApi.OutcomeSuccess | lib/api/tour-api.ts:154-172 | the page holds the item list, a single item wrapped, none as `[]` with count 0 |
| TourApi.OutcomeFailures | lib/api/tour-api.ts:139-185 | each failure cause gives its `TourApiError`: a non-OK status, a result-code error, and a fault either from `fetch` or from reading the body of an OK response, which is `Request timeout` with 408 for an abort and `Network error: <message>` otherwise |
| TourApi.FailureStatus | lib/api/tour-api.ts:139-185 | an error carries a status code only for a timeout (408) or a non-OK response, and then it is that response's status |
| TourApi.MapErrorStable | lib/api/tour-api.ts:174-176 | a `TourApiError` passes through the error mapping unchanged |
| TourApi.Delays | lib/api/tour-api.ts:93 | the `k`-th back-off delay is `2^k * 1000` ms |
| TourApi.FirstSuccess | lib/api/tour-api.ts:85-98 | the first successful attempt below a bound, every earlier one having failed, or none when all fail |
| TourApi.Retry | lib/api/tour-api.ts:79-101 | at most `maxRetries` calls; every call but the last failed; success exactly when some attempt within the budget succeeds, with its value; otherwise the last error after all attempts |
| TourApi.Backoff | lib/api/tour-api.ts:92-96 | a delay before every attempt but the first |
| TourApi.WithRetry | lib/api/tour-api.ts:79-101 | the loop makes exactly the calls and returns exactly the outcome `Retry` describes, waiting the `Backoff` delays |
| TourApi.BackoffDoubles | lib/api/tour-api.ts:93 | the first delay is one second and each further delay doubles the previous one |
| TourApi.Retried | lib/api/tour-api.ts:200-206 | every request is attempted one to three times, and a failure only after three attempts |
| TourApi.MissingKeyRetried | lib/api/tour-api.ts:52-63 | a missing key fails every attempt, so it is reported after three |
| TourApi.FetchTourApi | lib/api/tour-api.ts:110-186 | a missing or empty key fails with the error naming the variable, whatever the network does; a success was sent with a key |
| TourApi.AreaListParams | lib/api/tour-api.ts:229-235 | the area-list parameters have distinct keys |
| TourApi.GetAreaBasedList | lib/api/tour-api.ts:216-244 | one to three attempts, and a failure only after the third |
| TourApi.AreaListLookups | lib/api/tour-api.ts:229-235 | area, type, page size (default 20), page (default 1) and sort (default `C`); no service key among them |
| TourApi.AreaListSent | lib/api/tour-api.ts:226-238 | the area-list query carries the service key, the given area and type (dropped when undefined) and the defaulted page size, page and sort |
| TourApi.AreaListQuery | lib/api/tour-api.ts:216-244 | the same, for the request sent with the side's key |
| TourApi.KeywordParams | lib/api/tour-api.ts:270-276 | the keyword parameters have distinct keys |
| TourApi.SearchKeyword | lib/api/tour-api.ts:253-285 | a blank keyword returns an empty page without any request; any other keyword is requested |
| TourApi.KeywordLookups | lib/api/tour-api.ts:270-276 | the trimmed keyword, area, type, page size (default 20) and page (default 1); no service key among them |
| TourApi.KeywordSent | lib/api/tour-api.ts:267-279 | the keyword query carries the service key, trimmed keyword, area, type and defaulted page size and page |
| TourApi.KeywordQuery | lib/api/tour-api.ts:253-285 | the same, for the request sent with the side's key |
| TourApi.GetDetailCommon | lib/api/tour-api.ts:294-330 | the first record on success; a failed request's error; `Tour detail not found` for an empty answer |
| TourApi.GetDetailPetTour | lib/api/tour-api.ts:401-423 | the first record when the request succeeds with records, otherwise `null` |
| TourApi.PetTourNeverFails | lib/api/tour-api.ts:416-422 | `getDetailPetTour` never fails: every error the request raises is a `TourApiError` it turns into `null` |
| PetTourCache.ProcessInBatches | lib/utils/pet-tour-cache.ts:31-47 | result `k` is the processor applied to item `k`; the batches run are the consecutive slices of the batch size |
| PetTourCache.ChunkStep | lib/utils/pet-tour-cache.ts:38-39 | one turn of the loop takes the slice at `i` and moves on by the batch size |
| PetTourCache.BatchShape | lib/utils/pet-tour-cache.ts:22-47 | the batches are non-empty, hold at most ten items, number `ceil(n / 10)` and together are the items to fetch |
| PetTourCache.ToFetch | lib/utils/pet-tour-cache.ts:60-62 | the tours to fetch are the requested tours without a cache entry, in order, each as often as requested |
| PetTourCache.AfterCollect | lib/utils/pet-tour-cache.ts:57-101 | the cache after a collection: old entries kept, each missing requested id added with its lookup's value |
| PetTourCache.Restrict | lib/utils/pet-tour-cache.ts:65-70 | the entries of a map under the given keys |
| PetTourCache.PetTourCache.constructor | lib/utils/pet-tour-cache.ts:17 | the cache starts empty |
| PetTourCache.PetTourCache.GetCached | lib/utils/pet-tour-cache.ts:116-120 | `undefined` exactly for an id never stored, otherwise the stored value (possibly `null`) |
| PetTourCache.PetTourCache.Clear | lib/utils/pet-tour-cache.ts:107-109 | after clearing, every id reads as never stored |
| PetTourCache.PetTourCache.CachedPart | lib/utils/pet-tour-cache.ts:65-70 | the cache hits among the requested ids |
| PetTourCache.PetTourCache.StoreResults | lib/utils/pet-tour-cache.ts:77-98 | each processed lookup is written to the cache and the result |
| PetTourCache.PetTourCache.Collect | lib/utils/pet-tour-cache.ts:54-102 | the new cache is `AfterCollect`; the result is the cache restricted to the requested ids; the ids looked up are exactly those of the uncached tours, in order, and are the batches of ten put together |
| PetTourCache.PetTourCache.FetchMissing | lib/utils/pet-tour-cache.ts:73-99 | the given tours' lookups are written to the cache and the result; the ids looked up are those the processed lookups report, which are the tours' ids in order; the batches are consecutive slices of ten |
| PetTourCache.Written | lib/utils/pet-tour-cache.ts:79-98 | the keys are the old ones plus the written ids; a written id holds its lookup's stored value, `null` for a failure; other entries are unchanged |
| PetTourCache.CollectCovers | lib/utils/pet-tour-cache.ts:60-70 | every requested id is a hit or is fetched, and every fetched id was requested |
| PetTourCache.CollectAsWritten | lib/utils/pet-tour-cache.ts:73-98 | writing the fetched results over the cache and over the hits gives `AfterCollect` and its restriction |
| PetTourCache.CachedNeverFetched | lib/utils/pet-tour-cache.ts:60-62 | an id with an entry, even `null`, is not looked up |
| PetTourCache.NothingToFetch | lib/utils/pet-tour-cache.ts:73 | nothing is looked up exactly when every requested id has an entry, in particular for an empty request |
| PetTourCache.CollectTwice | lib/utils/pet-tour-cache.ts:54-102 | collecting the same tours again looks nothing up and leaves the cache unchanged |
| PetTourCache.CollectWrites | lib/utils/pet-tour-cache.ts:79-90 | unrequested ids are unaffected; a failed lookup is stored as `null`; a successful one stores exactly its value |
| PetTourCache.RepeatedIdFetchedTwice | lib/utils/pet-tour-cache.ts:60-62 | an uncached id requested twice in one call is looked up twice |
| PetTourCache.Upstream | lib/utils/pet-tour-cache.ts:78-91 | with `getDetailPetTour` as the lookup every lookup succeeds with that request's value, so the error branch of the processor is never taken |
| Seqs.Filter | components/tour-page-content.tsx:150-152 | `filter` keeps exactly the elements satisfying the test, in order, each as often as in the input, and no other |
| Seqs.FilterUnique | components/tour-page-content.tsx:150-152 | that contract determines the result: a subsequence with the passing elements as often as the input and no failing ones is `filter`'s result |
| Seqs.FilterMembership | components/tour-page-content.tsx:167 | an element survives `filter` exactly when it occurs and passes |
| Seqs.Map | lib/utils/pet-size.ts:74 | `map` applies the function to each element, keeping length and order |
| Seqs.FlattenChunks | lib/utils/pet-tour-cache.ts:38-44 | the slices of the batch loop, concatenated, are the input |
| Seqs.ChunkSizes | lib/utils/pet-tour-cache.ts:39 | every slice is non-empty and at most the batch size |
| Seqs.ChunkCount | lib/utils/pet-tour-cache.ts:38 | the loop runs `ceil(n / size)` times |
| Seqs.ChunkAt | lib/utils/pet-tour-cache.ts:38-39 | batch `j` is the slice from `j * size` to `min((j + 1) * size, n)` |
| Text.TrimIsTrimmed | lib/types/filter.ts:120 | `trim` leaves no white space at either end |
| Text.TrimIdempotent | lib/types/filter.ts:172-173 | trimming twice is trimming once |
| Text.SplitJoin | lib/types/filter.ts:66 | splitting at the separator undoes joining pieces that do not contain it |
| Text.ParseInt | lib/types/filter.ts:82-84 | a string of decimal digits parses to its value; a negative result needs a `-` after the leading white space |
| Text.ParseIntToString | lib/types/filter.ts:82-84 | `parseInt` of the decimal form of a positive number gives the number |
| Text.ToLowerIdempotent | lib/utils/pet-size.ts:22 | lower-casing twice is lower-casing once |

## Left out

- Networking, timers and JSON decoding are not modelled as such:
  - `fetch`, the `AbortController` timeout and `response.json()` become the `net` parameter;
  - its `Exchange` value is a response, or the fault `fetch` rejected with (an abort is an `AbortError`);
  - the 10-second timer and the one-hour revalidation are not modelled.
- Back-off delays are computed (`Backoff`); the waiting itself is not modelled.
- `getAreaCode` (lib/api/tour-api.ts:195-208), `getDetailIntro` (339-363) and `getDetailImage` (372-393) are not
  modelled. They follow the same `withRetry(fetchTourApi(...))` pattern as the helpers that are modelled, and nothing
  in the core consumes their results.
- `TourApiError` keeps its message and status code. The raw response payload it may carry is dropped, and the
  JavaScript `Error` machinery (stack, prototype) is not modelled.
- The `Array.isArray(result.data)` fallbacks in the endpoint helpers are the identity here. `fetchTourApi` always
  returns an array in the model: a single item is wrapped and no items give `[]`.
- The URL is kept as the endpoint plus the list of query entries. The base URL, URL percent-encoding and
  `URLSearchParams.toString` are not modelled.
- Object key order is insertion order in the model. JavaScript lists integer-like keys first, but no key used here is
  integer-like.
- The service key comes from `Env`, a parameter that stands for `process.env`. The code that reads it is not part of
  this model.
- Concurrency is not modelled:
  - `Promise.all` within a batch is modelled as the processor applied to each item in order;
  - the cache writes the processor makes inside the batch happen, in the model, in input order after the batches;
  - the final state is the same, because every write of an id stores the same value (the lookup is a function of the
    id), but interleavings with other callers of the cache are not modelled.
- The module-level cache is one `PetTourCache.PetTourCache` object, and the `console.error` logging is left out.
- `ProcessInBatches`: requires a positive batch size. With 0 the source loops forever on a non-empty list; the only
  caller passes 10.
- React state, effects, transitions and `router.push` of the listing page are left out. The model keeps what they
  compute:
  - the request choice in `loadTours` (`SelectQuery`, `LoadTours`);
  - the search handler;
  - the two `useMemo` filters, with the pet map and the loading flag as inputs.

  The `catch` block of `loadTours` and the error display are not modelled. The development-mode console logs and all
  rendering are left out.
- The filter panel's `getAreaCode` effect and its loading and error state are left out; the area value is the
  handler's input.
- TourFilters.HandleArrangeChange: takes an `Arrange`, not any string. The select only offers the four codes; the source's
  unchecked cast of another string is not modelled.
- TourFilters.HandleReset: returns the defaults object. The source imports `DEFAULT_FILTER_STATE` with `import type` at
  components/tour-filters.tsx:21, and this model does not reproduce that compile-time quirk.
- TourFilters.HandlePetFriendlyToggle: follows the code, which clears the size selection when the flag is turned on and keeps it
  when it is turned off. The inline comment at components/tour-filters.tsx:157 describes the opposite. Sizes only
  filter while the flag is on, so what shows is the same.
- The filter state's `arrange` is the datatype `Arrange`, with the codes `A`–`D`, and its `petSizes` are `PetSize`
  values. An out-of-range value injected through TypeScript casts is not representable.
- Query parameters are a map from key to a single string or a list of strings. The page passes
  `Object.fromEntries(searchParams.entries())`, which gives single strings only (`Filters.Lift`).
  `Record<string, string>` results are the datatype `ParamRecord`, one optional string per key, with `AsMap` as the
  key-value view.
- `filterToSearchParams` leaves out a `false` pet flag, so such a state reads back as unset (`ReloadForgetsFalseFlag`).
  The round trip is stated for states that are normalised (`Filters.Normalized`).
- An empty `contentTypeIds` string is falsy and leaves the field unset, while `","` gives the empty list; the model
  follows the code.
- `trim` removes ASCII white space only (space, tab, line feed, carriage return, vertical tab, form feed), not the full
  Unicode set. `toLowerCase` maps ASCII letters only. The Korean keywords and the `y`/`yes` answers are unaffected.
- `parseInt(s, 10)` is modelled for decimal digits: leading white space, an optional sign, then the longest digit
  prefix, with NaN as `None`. Numbers are unbounded integers. Precision loss beyond 2^53 is not modelled.

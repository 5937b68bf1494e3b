# GraphQL anime browser: state controller, pagination, response handling and display rules

This project models the logic of an Android app that browses anime from a
GraphQL API. It covers the parts of the app that decide something, and proves
properties about them:

- **The media view model (`MediaViewModel` and its `MediaState` records).**
  It holds one screen state: a paged list of media with loading, error,
  search and paging fields, and a detail pane that is loading, an error or a
  success. User actions and query results rewrite that state. The view model
  is a Dafny class with `modifies` clauses. Each asynchronous load becomes
  two atomic steps:
  - a *begin* step that marks the state loading and returns the request it
    would send;
  - a *completion* step that receives what executing that request did, either
    a returned response or a thrown exception.
- **The page merge and the page counter that follows a fetch** (module
  `Paging`, used by both list screens). The fetched page is appended with
  `distinctBy { it.id }`. The next page is `currentPage + 1`, computed in
  32-bit `Int` arithmetic.
- **The older list screen's pager** (`MediaList.kt`, a class over its
  remembered variables), and its "should load more" trigger. That trigger is a
  derived boolean passed through `distinctUntilChanged().filter { it }`. The
  model has the trigger both as written, with the loading flag frozen at its
  first value, and as intended (see "## Findings").
- **The classification of GraphQL responses.** It is modelled in the
  repository (`getMediaList`, `getMediaDetails`), in the view model and in
  the older details screen. Each checks, in order: GraphQL errors, a network
  exception, the presence of data, and finally a generic message.
- **The mappers** from the nullable raw query records to the domain records.
- **The text rules of both revisions of the detail tabs:**
  - the format, source, month and role label tables;
  - the season, date, author, studio and tag texts;
  - the genre rows.

Modules follow the program:

| module | file | models |
|---|---|---|
| `Common` | `common.dfy` | Kotlin pieces: `Option`, the 32-bit `Int`, `toString()`, `filterNotNull`, `mapNotNull`, `distinctUntilChanged` |
| `Schema` | `schema.dfy` | the raw query records and their enums |
| `Domain` | `domain.dfy` | the domain records of `media/domain/model` |
| `Mappers` | `mappers.dfy` | `media/domain/util` |
| `Classification`, `Repository` | `repository.dfy` | the ordered checks; `MediaRepositoryImpl` |
| `MediaStates` | `mediastate.dfy` | `MediaState.kt` |
| `Paging` | `paging.dfy` | the merge and paging arithmetic of both list screens |
| `ViewModel` | `viewmodel.dfy` | `MediaViewModel.kt` |
| `Pager` | `pager.dfy` | the older `MediaList.kt` |
| `LegacyDetails` | `legacydetails.dfy` | the older `MediaDetails.kt` |
| `Labels`, `InfoTab`, `LegacyInfoTab` | `labels.dfy`, `infotab.dfy`, `legacyinfotab.dfy` | both `TabContent.kt` files |

Calls into code outside the model are handled as follows:

- The network call `apolloClient.query(...).execute()` becomes a parameter:
  an `Execution` that either returned a `Response` (data, error list,
  exception) or threw with a message.
- The navigation channel becomes the log `navigationEvents` of the media ids
  sent.
- The repository's `core.util.Result` is not part of this model. It is
  modelled as `Success(data) | Error(exception) | Loading`, with an exception
  observable only through its message.

Four facts about the code shape the model:

- After a page that reports no next page, the page counter still becomes
  `currentPage + 1` and is not frozen
  (`media/presentation/MediaViewModel.kt:139`). The view model tests expect
  page 2 after one page and page 3 after two
  (`app/src/test/java/com/jdacodes/graphqlanimedemo/MediaViewModelTest.kt:162`,
  `:205`).
- `getMediaList` never looks at the response's error list, only at whether
  the page is present (`media/data/repository/MediaRepositoryImpl.kt:36-43`).
- The list state has no adult-content flag (`media/presentation/MediaState.kt:8-17`),
  and every search the collector receives resets paging and loads page 1;
  nothing compares it with a previously applied search beyond
  `distinctUntilChanged` (`media/presentation/MediaViewModel.kt:58`, `:66-76`).
- `onAction` handles exactly `SearchTextChanged`, `MediaClicked`,
  `ResetSearch` and `LoadMoreItems` (`media/presentation/MediaViewModel.kt:79-107`).
  `MediaAction.kt` declares `SearchSubmitted`, `SetTrailerFullscreen` and
  `AdultCheckboxToggled` as well, and no `ResetSearch`
  (`media/presentation/MediaAction.kt:3-10`).

## Model

| member | source | states |
|---|---|---|
| MediaStates.DefaultListState | app/src/main/java/com/jdacodes/graphqlanimedemo/media/presentation/MediaState.kt:8-17 | a fresh list state has no items, is neither loading nor refreshing, has no error and an empty search text, has more pages, and is at page 1 with page size 10 |
| MediaStates.DefaultDetailState | app/src/main/java/com/jdacodes/graphqlanimedemo/media/presentation/MediaState.kt:19-21 | a fresh detail state is Loading |
| MediaStates.DefaultMediaState | app/src/main/java/com/jdacodes/graphqlanimedemo/media/presentation/MediaState.kt:29-32 | the default screen state pairs the default list state with the default detail state |
| MediaStates.DetailUiStateExclusive | app/src/main/java/com/jdacodes/graphqlanimedemo/media/presentation/MediaState.kt:23-27 | every detail UI state is exactly one of Loading, Error and Success |
| ViewModel.IfEmptyNull | app/src/main/java/com/jdacodes/graphqlanimedemo/media/presentation/MediaViewModel.kt:73 | `ifEmpty { null }` gives none exactly for the empty text, and the text itself otherwise |
| ViewModel.SearchFilter | app/src/main/java/com/jdacodes/graphqlanimedemo/media/presentation/MediaViewModel.kt:52-57 | text that is empty or at least 3 UTF-16 code units long (Kotlin `length`) passes unchanged (both directions); shorter non-empty text becomes "" |
| ViewModel.SearchFilterCountsCodeUnits | app/src/main/java/com/jdacodes/graphqlanimedemo/media/presentation/MediaViewModel.kt:52 | the length counted is Kotlin's UTF-16 `length`: two emoji, two characters but four code units, pass the filter |
| Common.Utf16Length | app/src/main/java/com/jdacodes/graphqlanimedemo/media/presentation/MediaViewModel.kt:52 | Kotlin `String.length` counts a character outside the Basic Multilingual Plane twice: between the character count and twice it, and 0 exactly for "" |
| ViewModel.SearchFilterIdempotent | app/src/main/java/com/jdacodes/graphqlanimedemo/media/presentation/MediaViewModel.kt:48-58 | applying the length filter twice filters no further |
| ViewModel.SearchEmissionsProperties | app/src/main/java/com/jdacodes/graphqlanimedemo/media/presentation/MediaViewModel.kt:47-58 | every debounced search the collector receives is "" or at least 3 UTF-16 code units long; no two in a row are equal; the last one is the filtered last text |
| ViewModel.SearchEmissionsSnoc | app/src/main/java/com/jdacodes/graphqlanimedemo/media/presentation/MediaViewModel.kt:47-58 | one more debounced text starts exactly the search for its filtered value when that value differs from the previous text's filtered value, and starts nothing when the two are equal |
| ViewModel.TwoDifferentSearches | app/src/main/java/com/jdacodes/graphqlanimedemo/media/presentation/MediaViewModel.kt:47-58 | typing "naruto" and then "bleach" starts both searches, in that order |
| ViewModel.ListLoadedProperties | app/src/main/java/com/jdacodes/graphqlanimedemo/media/presentation/MediaViewModel.kt:128-142 | a returned page keeps the old items as a prefix and appends only fetched items with new ids, so ids stay distinct and become the union; loading ends; `hasNextPage` holds iff the page info reports true; the page is the next page number; search text, page size, refresh flag and error are untouched |
| ViewModel.ListFailedProperties | app/src/main/java/com/jdacodes/graphqlanimedemo/media/presentation/MediaViewModel.kt:143-151 | a thrown list load ends loading and sets the error to "Error loading media: " followed by the message, leaving items, page, `hasNextPage`, search text and page size as they were |
| ViewModel.TwoPagesGivePageThree | app/src/main/java/com/jdacodes/graphqlanimedemo/media/presentation/MediaViewModel.kt:139 | two successful pages, reporting pages 1 and 2 and started from page 1, give page 2 and then page 3, with no next page and with the two pages merged without duplicate ids |
| ViewModel.DetailOutcomeProperties | app/src/main/java/com/jdacodes/graphqlanimedemo/media/presentation/MediaViewModel.kt:172-221 | a detail completion is never Loading; it sends a navigation event iff it succeeds; a success holds the response's Media; errors come first (first message), then a network exception (the connectivity message), then the generic message |
| ViewModel.MediaViewModel.constructor | app/src/main/java/com/jdacodes/graphqlanimedemo/media/presentation/MediaViewModel.kt:29-31 | the view model starts with the default state, the initial-load flag cleared and nothing sent |
| ViewModel.MediaViewModel.LoadMediaList | app/src/main/java/com/jdacodes/graphqlanimedemo/media/presentation/MediaViewModel.kt:110-117 | beginning a list load sets `isLoading` and changes nothing else; it requests the given page, page size and search |
| ViewModel.MediaViewModel.CompleteListLoad | app/src/main/java/com/jdacodes/graphqlanimedemo/media/presentation/MediaViewModel.kt:118-153 | the completion step replaces the list state by the returned-page or thrown-exception outcome, and keeps ids distinct |
| ViewModel.MediaViewModel.OnStart | app/src/main/java/com/jdacodes/graphqlanimedemo/media/presentation/MediaViewModel.kt:33-39 | only the first subscription starts a load of the current page without a search; later ones change nothing |
| ViewModel.MediaViewModel.ResetPaginationState | app/src/main/java/com/jdacodes/graphqlanimedemo/media/presentation/MediaViewModel.kt:156-166 | paging resets to page 1, more pages and no items; nothing else changes |
| ViewModel.MediaViewModel.OnDebouncedSearchText | app/src/main/java/com/jdacodes/graphqlanimedemo/media/presentation/MediaViewModel.kt:66-76 | a debounced search resets paging and then loads page 1 for the text, an empty text meaning no search |
| ViewModel.MediaViewModel.LoadMediaDetails | app/src/main/java/com/jdacodes/graphqlanimedemo/media/presentation/MediaViewModel.kt:168-171 | beginning a detail load sets the detail state to Loading and changes nothing else |
| ViewModel.MediaViewModel.CompleteDetailLoad | app/src/main/java/com/jdacodes/graphqlanimedemo/media/presentation/MediaViewModel.kt:172-221 | the detail state becomes the classified outcome, a thrown exception giving "Error loading media details: " and the message; the id is sent on the navigation channel exactly when Media is present |
| ViewModel.MediaViewModel.OnAction | app/src/main/java/com/jdacodes/graphqlanimedemo/media/presentation/MediaViewModel.kt:79-108 | `SearchTextChanged` and `ResetSearch` change only the search text; `MediaClicked` begins a detail load; `LoadMoreItems` begins a load of the current page (empty search sent as none) exactly when more pages remain and nothing is loading, and otherwise changes nothing |
| ViewModel.TwoPageSession | app/src/main/java/com/jdacodes/graphqlanimedemo/media/presentation/MediaViewModel.kt:97-142 | a fresh view model, subscribed to and fed two pages through `LoadMoreItems`, ends at page 3 with no next page and the merged items; a `LoadMoreItems` while the first load runs requests nothing |
| ViewModel.FailureKeepsItems | app/src/main/java/com/jdacodes/graphqlanimedemo/media/presentation/MediaViewModel.kt:143-151 | a failed load after a successful one keeps the fetched items and page 2 and records the prefixed message |
| Paging.DistinctByIdFromProperties | app/src/main/java/com/jdacodes/graphqlanimedemo/media/presentation/MediaViewModel.kt:133 | `distinctBy { it.id }` keeps only entries of the input with unseen ids, no two with the same id, and every unseen id of the input |
| Paging.DistinctByIdFromAppend | app/src/main/java/com/jdacodes/graphqlanimedemo/media/presentation/MediaViewModel.kt:133 | `distinctBy` over a concatenation is the first part's result followed by the second part's, continued with the first part's ids as seen |
| Paging.DistinctByIdFromFresh | app/src/main/java/com/jdacodes/graphqlanimedemo/media/presentation/MediaViewModel.kt:133 | a list whose ids are distinct and unseen passes through unchanged |
| Paging.MergePageProperties | app/src/main/java/com/jdacodes/graphqlanimedemo/media/presentation/MediaViewModel.kt:132-133 | merging a page keeps every existing item, in order, as a prefix; appends only fetched items with new ids; leaves no duplicate ids; and its ids are the union |
| Paging.MergePageIdempotent | app/src/main/java/com/jdacodes/graphqlanimedemo/MediaList.kt:83 | merging the same page twice leaves the list as after the first merge |
| Paging.NewMediaItems | app/src/main/java/com/jdacodes/graphqlanimedemo/media/presentation/MediaViewModel.kt:128 | the fetched items are the non-null media of the page, and none when data, page or media is missing |
| Paging.HasNextPageAfter | app/src/main/java/com/jdacodes/graphqlanimedemo/media/presentation/MediaViewModel.kt:138 | more pages remain iff the page info exists and reports true |
| Paging.NextPageNumber | app/src/main/java/com/jdacodes/graphqlanimedemo/media/presentation/MediaViewModel.kt:139 | the next page is the reported page plus one (wrapping at the top of `Int`), or the requested page when no page is reported |
| Paging.NextPageFollowsReport | app/src/main/java/com/jdacodes/graphqlanimedemo/MediaList.kt:87 | the next page depends only on the page the server reports, not on the page requested |
| Common.PlusOne | app/src/main/java/com/jdacodes/graphqlanimedemo/media/presentation/MediaViewModel.kt:139 | Kotlin `plus(1)` adds one below the top of `Int` and wraps to the bottom at the top |
| Common.DistinctUntilChangedProperties | app/src/main/java/com/jdacodes/graphqlanimedemo/media/presentation/MediaViewModel.kt:58 | `distinctUntilChanged` emits no two equal values in a row, emits only received values, and always ends with the last received value |
| Common.DedupFromSnoc | app/src/main/java/com/jdacodes/graphqlanimedemo/media/presentation/MediaViewModel.kt:58 | after any prefix, one more value is appended to the emissions exactly when it differs from the last value seen (the prefix's last value, or the starting one for an empty prefix) |
| Common.DistinctUntilChangedSnoc | app/src/main/java/com/jdacodes/graphqlanimedemo/media/presentation/MediaViewModel.kt:58 | the snoc law: `distinctUntilChanged(s + [x])` is `distinctUntilChanged(s)` followed by `x` unless `s` ends with `x`, in which case nothing is appended |
| Pager.MediaListPager.constructor | app/src/main/java/com/jdacodes/graphqlanimedemo/MediaList.kt:58-67 | the pager starts at page 1 with page size 10, more pages, an empty list and not loading |
| Pager.MediaListPager.BeginLoad | app/src/main/java/com/jdacodes/graphqlanimedemo/MediaList.kt:70-74 | a load starts only when idle with pages left: it sets `isLoading` and requests the current page; otherwise nothing changes |
| Pager.MediaListPager.FinishLoad | app/src/main/java/com/jdacodes/graphqlanimedemo/MediaList.kt:75-90 | after a fetch, the list is the merged page, `hasNextPage` comes from the page info (false when absent), the page is the next page number and loading is over; ids stay distinct |
| Pager.FirstLoad | app/src/main/java/com/jdacodes/graphqlanimedemo/MediaList.kt:70-93 | on a fresh pager the first call requests page 1 of 10, a call during the fetch requests nothing, and afterwards the pager holds the fetched page and is idle |
| Pager.LastVisibleIndex | app/src/main/java/com/jdacodes/graphqlanimedemo/MediaList.kt:121-122 | the last visible index is the last entry of the visible indices, or 0 when nothing is visible |
| Pager.ShouldLoadMoreProperties | app/src/main/java/com/jdacodes/graphqlanimedemo/MediaList.kt:116-126 | the intended trigger, reading the current loading flag: it never holds while loading; with nothing visible it holds iff the list is within the buffer and nothing is loading; a shorter list never asks later than a longer one |
| Pager.AsWrittenIgnoresLoading | app/src/main/java/com/jdacodes/graphqlanimedemo/MediaList.kt:115-126 | the remembered derived state reads the `isLoading` captured at the first composition (false), so as written the trigger depends only on the scroll position |
| Pager.AsWrittenFiresWhileLoading | app/src/main/java/com/jdacodes/graphqlanimedemo/MediaList.kt:115-126 | with items 8 and 9 of 10 visible while a page is loading, the trigger as written fires and the intended one does not |
| Pager.DedupCountsRisingEdges | app/src/main/java/com/jdacodes/graphqlanimedemo/MediaList.kt:129-136 | after a known last value, the true values `distinctUntilChanged` lets through are the changes from false to true |
| Pager.LoadTriggersAreRisingEdges | app/src/main/java/com/jdacodes/graphqlanimedemo/MediaList.kt:129-136 | one load is triggered per change of the derived state from false to true, starting from false |
| Pager.StayingTrueTriggersOnce | app/src/main/java/com/jdacodes/graphqlanimedemo/MediaList.kt:129-136 | a derived state that stays true triggers exactly one load |
| Classification.Classify | app/src/main/java/com/jdacodes/graphqlanimedemo/media/data/repository/MediaRepositoryImpl.kt:60-76 | the verdict is "GraphQL errors" (with the first message) iff the error list is non-empty, "network failure" iff there are no errors and the exception is a network exception, and "data present" iff neither holds and the data is there |
| Classification.EarlierChecksDecide | app/src/main/java/com/jdacodes/graphqlanimedemo/media/data/repository/MediaRepositoryImpl.kt:60-68 | once errors or a network exception are present, the data does not affect the verdict, and the verdict is a failure |
| Repository.GetMediaList | app/src/main/java/com/jdacodes/graphqlanimedemo/media/data/repository/MediaRepositoryImpl.kt:22-48 | never Loading; a thrown exception gives Error with it; a present page gives Success of the mapped page; a missing page gives Error("Page data is null") |
| Repository.DetailsUiStateOf | app/src/main/java/com/jdacodes/graphqlanimedemo/media/data/repository/MediaRepositoryImpl.kt:60-76 | the repository's intermediate UI state is never Loading |
| Repository.GetMediaDetails | app/src/main/java/com/jdacodes/graphqlanimedemo/media/data/repository/MediaRepositoryImpl.kt:50-88 | never Loading; a thrown exception gives Error with it |
| Repository.GetMediaDetailsClassification | app/src/main/java/com/jdacodes/graphqlanimedemo/media/data/repository/MediaRepositoryImpl.kt:60-83 | a returned detail response gives, in order of precedence, Error(first GraphQL message), Error(connectivity message), Success(mapped Media) and Error(generic message) |
| Repository.GetMediaDetailsSuccessId | app/src/main/java/com/jdacodes/graphqlanimedemo/media/data/repository/MediaRepositoryImpl.kt:69-80 | a successful detail result comes from a present Media and carries its id |
| Repository.RepositoryAgreesWithViewModel | app/src/main/java/com/jdacodes/graphqlanimedemo/media/data/repository/MediaRepositoryImpl.kt:60-76 | the repository and the view model succeed on the same responses, the repository's details being the view model's Media mapped, and fail with the same message |
| LegacyDetails.ClassifyResponse | app/src/main/java/com/jdacodes/graphqlanimedemo/MediaDetails.kt:68-84 | the older screen is never left Loading; it succeeds iff there are no errors, no network exception and any data at all, and a success holds that data |
| LegacyDetails.ScreensAgreeExceptEmptyMedia | app/src/main/java/com/jdacodes/graphqlanimedemo/MediaDetails.kt:77-79 | the older screen and the view model show the same messages and the same Media, and disagree on success exactly when the data is present without Media |
| LegacyDetails.DetailsScreen.constructor | app/src/main/java/com/jdacodes/graphqlanimedemo/MediaDetails.kt:59 | the screen starts in Loading with no query issued |
| LegacyDetails.DetailsScreen.Shown | app/src/main/java/com/jdacodes/graphqlanimedemo/MediaDetails.kt:54-93 | id 0 always shows "Invalid media ID"; otherwise a spinner is shown exactly while Loading, an Error shows its message, and a Success shows its data |
| LegacyDetails.DetailsScreen.RunEffect | app/src/main/java/com/jdacodes/graphqlanimedemo/MediaDetails.kt:60-88 | for id 0 no query is issued and nothing changes; otherwise the id is queried and the state becomes the classified response |
| LegacyDetails.OpenWithIdZero | app/src/main/java/com/jdacodes/graphqlanimedemo/MediaDetails.kt:54-57 | opening the screen with id 0 shows "Invalid media ID" and issues no query, whatever the response would be |
| Mappers.StudioOf | app/src/main/java/com/jdacodes/graphqlanimedemo/media/domain/util/MediaMapper.kt:9-11 | a studio exists iff the edge and its node do, with `isMain` from the edge and the name from the node |
| Mappers.StudiosOf | app/src/main/java/com/jdacodes/graphqlanimedemo/media/domain/util/MediaMapper.kt:9-11 | missing studios or edges give no studios; otherwise one studio per edge that has a node, in edge order, each with `isMain` from that edge and the name from its node; every such edge yields its studio |
| Common.MapNotNullEntries | app/src/main/java/com/jdacodes/graphqlanimedemo/media/domain/util/MediaDetailMapper.kt:16-18 | `mapNotNull(f)` gives one result per entry on which `f` gives a value, and the i-th result is `f` of the i-th such entry |
| Common.PresentMembers | app/src/main/java/com/jdacodes/graphqlanimedemo/media/domain/util/MediaDetailMapper.kt:16-18 | the entries `mapNotNull` keeps are exactly the entries of the list on which the lambda gives a value |
| Mappers.StudiosKeepOrder | app/src/main/java/com/jdacodes/graphqlanimedemo/media/domain/util/MediaDetailMapper.kt:16-18 | the studios of concatenated edge lists are the concatenation of their studios, so order is kept |
| Mappers.ToDomainPageInfo | app/src/main/java/com/jdacodes/graphqlanimedemo/media/domain/util/PageInfoMapper.kt:6-13 | `hasNextPage` holds iff it is reported true; each missing number becomes 0, and each present one is copied |
| Mappers.PageInfoRoundTrip | app/src/main/java/com/jdacodes/graphqlanimedemo/media/domain/util/PageInfoMapper.kt:7-12 | mapping a fully populated page info is the identity on all four fields |
| Mappers.PageInfoLossless | app/src/main/java/com/jdacodes/graphqlanimedemo/media/domain/util/PageInfoMapper.kt:7-12 | a raw page info survives the trip through the domain iff all four fields are present |
| Mappers.ToMediaListItem | app/src/main/java/com/jdacodes/graphqlanimedemo/media/domain/util/MediaMapper.kt:7-23 | the id, description and average score are copied; a missing title or cover makes both of its fields absent, and otherwise each is copied; studios as mapped from the edges |
| Mappers.ToMediaListResult | app/src/main/java/com/jdacodes/graphqlanimedemo/media/domain/util/MediaListMapper.kt:7-14 | missing media give no items; otherwise there is one item per non-null medium, mapped in order; missing page info gives `PageInfo(false, 0, 0, 0)`, and present page info is mapped |
| Mappers.ListResultIds | app/src/main/java/com/jdacodes/graphqlanimedemo/media/domain/util/MediaListMapper.kt:8 | the item ids are, entry by entry, the ids of the non-null raw media |
| Mappers.TrendsOf | app/src/main/java/com/jdacodes/graphqlanimedemo/media/domain/util/MediaDetailMapper.kt:21-23 | trends keep their length: a null node becomes a trend with no episode |
| Mappers.DatePartsOf | app/src/main/java/com/jdacodes/graphqlanimedemo/media/domain/util/MediaDetailMapper.kt:26-27 | date parts exist iff the raw date does, with day, month and year copied |
| Mappers.TrailerOf | app/src/main/java/com/jdacodes/graphqlanimedemo/media/domain/util/MediaDetailMapper.kt:30-31 | a trailer item exists iff the raw trailer does, with id, site and thumbnail copied |
| Mappers.TagOf | app/src/main/java/com/jdacodes/graphqlanimedemo/media/domain/util/MediaDetailMapper.kt:35 | a tag item exists iff the raw tag does, with name and rank copied |
| Mappers.TagsOf | app/src/main/java/com/jdacodes/graphqlanimedemo/media/domain/util/MediaDetailMapper.kt:34-36 | missing tags give none; otherwise one item per non-null tag, in order |
| Mappers.VoiceActorNameOf | app/src/main/java/com/jdacodes/graphqlanimedemo/media/domain/util/MediaDetailMapper.kt:43 | a voice actor name exists iff the role, voice actor, name and full name all do |
| Mappers.CharacterOf | app/src/main/java/com/jdacodes/graphqlanimedemo/media/domain/util/MediaDetailMapper.kt:40-52 | a character exists iff the edge and its node do; its fields come from the node and the edge, the role as its enum name |
| Mappers.VoiceActorNamesArePresentFullNames | app/src/main/java/com/jdacodes/graphqlanimedemo/media/domain/util/MediaDetailMapper.kt:42-43 | voice actor names are one per role whose voice actor has a full name, in role order, each that role's full name; every present full name is among them |
| Mappers.CharactersOf | app/src/main/java/com/jdacodes/graphqlanimedemo/media/domain/util/MediaDetailMapper.kt:39-53 | missing characters or edges give none; otherwise one character per edge that has a node, in edge order, each the mapping of that edge; every such edge yields its character |
| Mappers.StaffOf | app/src/main/java/com/jdacodes/graphqlanimedemo/media/domain/util/MediaDetailMapper.kt:57-65 | a staff item exists iff the node does, with id, full name, occupations and both images copied |
| Mappers.StaffListOf | app/src/main/java/com/jdacodes/graphqlanimedemo/media/domain/util/MediaDetailMapper.kt:56-66 | missing staff gives none; otherwise one item per non-null node, in order |
| Mappers.StaffKeepsNonNullNodes | app/src/main/java/com/jdacodes/graphqlanimedemo/media/domain/util/MediaDetailMapper.kt:56-66 | the staff mapping drops exactly the null nodes and maps the rest in order |
| Mappers.RecommendationOf | app/src/main/java/com/jdacodes/graphqlanimedemo/media/domain/util/MediaDetailMapper.kt:70-81 | a recommendation exists iff the node and its recommended media do; its id is the node's id, and score, episodes, the three titles and both cover sizes come from the recommended media |
| Mappers.RecommendationsOf | app/src/main/java/com/jdacodes/graphqlanimedemo/media/domain/util/MediaDetailMapper.kt:69-82 | missing recommendations or nodes give none; otherwise one recommendation per node that has a recommended media, in node order, each the mapping of that node; every such node yields its recommendation |
| Mappers.ToMediaDetails | app/src/main/java/com/jdacodes/graphqlanimedemo/media/domain/util/MediaDetailMapper.kt:14-114 | the details carry the raw id, and start and end dates exist iff the raw ones do |
| Mappers.DetailScalarsCopied | app/src/main/java/com/jdacodes/graphqlanimedemo/media/domain/util/MediaDetailMapper.kt:84-113 | scalars are copied unchanged, and missing synonyms and genres become empty lists |
| Mappers.DetailListsMapped | app/src/main/java/com/jdacodes/graphqlanimedemo/media/domain/util/MediaDetailMapper.kt:84-113 | titles and the cover come from their optional parents, every list field is built by its entry mapper, and the start and end dates by the date mapper |
| Mappers.DetailEnumsNamed | app/src/main/java/com/jdacodes/graphqlanimedemo/media/domain/util/MediaDetailMapper.kt:95-100 | status, format, source and season become their enum constant names |
| Mappers.DetailEnumsRecoverable | app/src/main/java/com/jdacodes/graphqlanimedemo/media/domain/util/MediaDetailMapper.kt:95-100 | each stored enum name reads back as the raw enum value |
| Schema.FormatNameRoundTrip | app/src/main/java/com/jdacodes/graphqlanimedemo/media/domain/util/MediaDetailMapper.kt:98 | every format's constant name reads back as that format |
| Schema.SourceNameRoundTrip | app/src/main/java/com/jdacodes/graphqlanimedemo/media/domain/util/MediaDetailMapper.kt:99 | every source's constant name reads back as that source |
| Schema.StatusNameRoundTrip | app/src/main/java/com/jdacodes/graphqlanimedemo/media/domain/util/MediaDetailMapper.kt:95 | every status's constant name reads back as that status |
| Schema.SeasonNameRoundTrip | app/src/main/java/com/jdacodes/graphqlanimedemo/media/domain/util/MediaDetailMapper.kt:100 | every season's constant name reads back as that season |
| Schema.RoleNameRoundTrip | app/src/main/java/com/jdacodes/graphqlanimedemo/media/domain/util/MediaDetailMapper.kt:49 | every role's constant name reads back as that role |
| Labels.FormatLabel | app/src/main/java/com/jdacodes/graphqlanimedemo/media/presentation/composable/TabContent.kt:846-858 | the format label is "Unknown" exactly for the unknown format |
| Labels.FormatLabelRoundTrip | app/src/main/java/com/jdacodes/graphqlanimedemo/TabContent.kt:562-574 | every format label reads back as its format, so no two formats share a label |
| Labels.SourceLabel | app/src/main/java/com/jdacodes/graphqlanimedemo/media/presentation/composable/TabContent.kt:860-877 | the source label is "Unknown" exactly for the unknown source |
| Labels.SourceLabelRoundTrip | app/src/main/java/com/jdacodes/graphqlanimedemo/TabContent.kt:576-593 | every source label reads back as its source, across all sixteen values |
| Labels.MonthLabel | app/src/main/java/com/jdacodes/graphqlanimedemo/media/presentation/composable/TabContent.kt:879-897 | months 1 to 12 get their English names in order, and every other number gets a single space |
| Labels.MonthLabelRoundTrip | app/src/main/java/com/jdacodes/graphqlanimedemo/TabContent.kt:595-613 | a month name reads back as its number, and the fallback names no month |
| Labels.RoleLabel | app/src/main/java/com/jdacodes/graphqlanimedemo/media/presentation/composable/TabContent.kt:899-903 | the role label is "Unknown" exactly for the unknown role |
| Labels.RoleLabelRoundTrip | app/src/main/java/com/jdacodes/graphqlanimedemo/media/presentation/composable/TabContent.kt:899-903 | every role label reads back as its role |
| InfoTab.EpisodesText | app/src/main/java/com/jdacodes/graphqlanimedemo/media/presentation/composable/TabContent.kt:322 | the episode count in decimal, and "Unknown" exactly when it is missing |
| InfoTab.FormatText | app/src/main/java/com/jdacodes/graphqlanimedemo/media/presentation/composable/TabContent.kt:340 | "Unknown" exactly when the format is missing or unknown; otherwise the label names the format |
| InfoTab.SourceText | app/src/main/java/com/jdacodes/graphqlanimedemo/media/presentation/composable/TabContent.kt:358 | "Unknown" exactly when the source is missing or unknown; otherwise the label names the source |
| InfoTab.StudioText | app/src/main/java/com/jdacodes/graphqlanimedemo/media/presentation/composable/TabContent.kt:375-381 | the studio line is shown iff some edge is non-null; it then shows the first edge's node name, or "Unknown" when that edge or node is null |
| InfoTab.FirstMangakaFrom | app/src/main/java/com/jdacodes/graphqlanimedemo/media/presentation/composable/TabContent.kt:397 | finds the first staff node from a position on whose occupations include "Mangaka", or reports that there is none |
| InfoTab.AuthorName | app/src/main/java/com/jdacodes/graphqlanimedemo/media/presentation/composable/TabContent.kt:396-398 | the author is "Unknown" when no staff node is a Mangaka; otherwise it is the full name of the first Mangaka node, or "Unknown" when that node has no full name |
| InfoTab.SeasonText | app/src/main/java/com/jdacodes/graphqlanimedemo/media/presentation/composable/TabContent.kt:418-423 | the season line is "Unknown" exactly when the season or the year is missing |
| InfoTab.SeasonTextInjective | app/src/main/java/com/jdacodes/graphqlanimedemo/media/presentation/composable/TabContent.kt:418-423 | a season line that is not "Unknown" determines both the season and the year |
| InfoTab.DateLine | app/src/main/java/com/jdacodes/graphqlanimedemo/media/presentation/composable/TabContent.kt:444 | a formatted date line is non-empty and ends with a digit of the year |
| InfoTab.DateLineInjective | app/src/main/java/com/jdacodes/graphqlanimedemo/media/presentation/composable/TabContent.kt:442-447 | a date line determines the day (a "null" day included), the month label and the year, and so the month when it is in 1..12 |
| Labels.MonthLabelInjective | app/src/main/java/com/jdacodes/graphqlanimedemo/media/presentation/composable/TabContent.kt:879-897 | no two months in 1..12 share a label |
| InfoTab.StartDateText | app/src/main/java/com/jdacodes/graphqlanimedemo/media/presentation/composable/TabContent.kt:442-447 | the start date is "Not yet aired" exactly when the date, its month or its year is missing, and otherwise the date line of its day, month and year |
| InfoTab.EndDateText | app/src/main/java/com/jdacodes/graphqlanimedemo/media/presentation/composable/TabContent.kt:466-471 | the end date is "Ongoing" exactly when the date, its month or its year is missing, and otherwise the date line of its day, month and year |
| InfoTab.DateText | app/src/main/java/com/jdacodes/graphqlanimedemo/media/presentation/composable/TabContent.kt:442-447 | a date with month and year present is shown as its date line (day, month label and year between spaces) |
| InfoTab.DateTextDetermines | app/src/main/java/com/jdacodes/graphqlanimedemo/media/presentation/composable/TabContent.kt:442-471 | two complete dates shown with the same start or end date line have the same day and year, and the same month when it is a real one |
| InfoTab.TagLabel | app/src/main/java/com/jdacodes/graphqlanimedemo/media/presentation/composable/TabContent.kt:767 | a tag chip starts with the tag's name and ends with "%" |
| InfoTab.TagLabels | app/src/main/java/com/jdacodes/graphqlanimedemo/media/presentation/composable/TabContent.kt:763-769 | one chip per tag entry, in order, and none for a missing list |
| InfoTab.TagLabelDeterminesRank | app/src/main/java/com/jdacodes/graphqlanimedemo/media/presentation/composable/TabContent.kt:767 | two tags with the same name and the same chip have the same rank |
| InfoTab.Chunked2 | app/src/main/java/com/jdacodes/graphqlanimedemo/media/presentation/composable/TabContent.kt:727 | `chunked(2)` gives half the entries rounded up as rows, each of one or two entries, all but the last of two |
| InfoTab.Chunked2Flatten | app/src/main/java/com/jdacodes/graphqlanimedemo/media/presentation/composable/TabContent.kt:727 | the rows of `chunked(2)` hold the entries in order, none lost or repeated |
| InfoTab.Chunked2LastRow | app/src/main/java/com/jdacodes/graphqlanimedemo/media/presentation/composable/TabContent.kt:727-750 | only the last row can be single, and it is exactly when the count is odd |
| InfoTab.GenreRows | app/src/main/java/com/jdacodes/graphqlanimedemo/media/presentation/composable/TabContent.kt:724-756 | no rows for missing or empty genres; otherwise the rows, read in order, are exactly the genres with a missing name as "", two per row, the last row single exactly for an odd count |
| InfoTab.GenreNames | app/src/main/java/com/jdacodes/graphqlanimedemo/media/presentation/composable/TabContent.kt:742-745 | each genre is shown as its name, or "" when it is missing |
| LegacyInfoTab.LegacySeasonText | app/src/main/java/com/jdacodes/graphqlanimedemo/TabContent.kt:291-292 | the older season line is always the season name (or "") and the year's `toString()` around a space |
| LegacyInfoTab.SeasonTextsAgree | app/src/main/java/com/jdacodes/graphqlanimedemo/TabContent.kt:291-292 | with season and year known both revisions print the same line; otherwise they always differ |
| LegacyInfoTab.LegacyDateText | app/src/main/java/com/jdacodes/graphqlanimedemo/TabContent.kt:311-316 | the older date line is "" exactly when the date is missing |
| LegacyInfoTab.LegacyMonthText | app/src/main/java/com/jdacodes/graphqlanimedemo/TabContent.kt:313 | the older month part is the month label, or "" when the month is missing |
| LegacyInfoTab.LegacyDateTextDetermines | app/src/main/java/com/jdacodes/graphqlanimedemo/TabContent.kt:311-316 | an older date line determines the day and the year (each possibly "null") and the month part, and so the month when both are real months |
| LegacyInfoTab.DateTextsAgree | app/src/main/java/com/jdacodes/graphqlanimedemo/TabContent.kt:311-316 | with month and year known, the older date line equals the newer start and end date lines |
| LegacyInfoTab.JoinSynonyms | app/src/main/java/com/jdacodes/graphqlanimedemo/TabContent.kt:450 | missing synonyms show as ""; present ones are joined with ", " |
| LegacyInfoTab.JoinComma | app/src/main/java/com/jdacodes/graphqlanimedemo/TabContent.kt:450 | joining no entries gives "", and one entry gives its text ("null" for a null entry) |
| LegacyInfoTab.JoinCommaAppend | app/src/main/java/com/jdacodes/graphqlanimedemo/TabContent.kt:450 | joining two non-empty lists one after the other is joining each and putting one ", " between |
| LegacyInfoTab.InfoRows | app/src/main/java/com/jdacodes/graphqlanimedemo/TabContent.kt:156-460 | the older info tab shows no rows exactly when the data has no Media; otherwise the thirteen text rows under their headings in screen order, all with a text except possibly the studio row |
| LegacyInfoTab.RowText | app/src/main/java/com/jdacodes/graphqlanimedemo/TabContent.kt:156-460 | every row but the studio row has a text |
| LegacyInfoTab.InfoRowTextsProduction | app/src/main/java/com/jdacodes/graphqlanimedemo/TabContent.kt:186-296 | the episodes, format, source, studio, author and season rows show the newer tab's rules for those fields (the season through the older rule) |
| LegacyInfoTab.InfoRowTextsDates | app/src/main/java/com/jdacodes/graphqlanimedemo/TabContent.kt:304-344 | the start and end date rows show the older date lines |
| LegacyInfoTab.InfoRowTextsCounts | app/src/main/java/com/jdacodes/graphqlanimedemo/TabContent.kt:352-380 | the popularity and favourites rows show the counts through `toString()` |
| LegacyInfoTab.InfoRowTextsNames | app/src/main/java/com/jdacodes/graphqlanimedemo/TabContent.kt:388-452 | the romaji and native name rows show the title or "", and the synonyms row the joined synonyms |

## Left out

- Compose rendering, layouts, images, the pager and tab widgets, and both `CollapsedHeaderContent.kt` files: user interface with no decision in it.
- Coroutines, `viewModelScope.launch`, `StateFlow` sharing and the 500 ms `debounce`: each load is two atomic steps, and `SearchEmissions` takes the values that survive the debounce window.
- The navigation `Channel` is modelled as an append-only log of the ids sent; delivery and consumption are not modelled.
- The Apollo client, the network and dependency injection: responses and thrown exceptions are inputs.
- `Log.d` calls, and the unused first `Media?.let { Success(it) }` in the view model's success branch: no effect on the state.
- The older pager's and older details screen's `execute()` throwing: neither has a `try`/`catch`, so the failure leaves the composition and is not a state of the screen.
- `delay(1000)` in the older pager: timing only.
- The mean score text (`toFloat() / 10f`), the HTML synopsis, the trailer (YouTube player and fullscreen), the staff occupation joins and the recommendation cards: floating point, foreign libraries and layout.
- LegacyInfoTab.InfoRows: covers the thirteen modelled text rows, not the mean score, synopsis and trailer rows.
- Mappers.ToMediaDetails: its own contract states only the id and whether each date is present; the dates themselves and the other fields are stated by `DetailScalarsCopied`, `DetailListsMapped` and `DetailEnumsNamed`.
- Repository.GetMediaDetails: the unreachable "Unexpected UI state" branch is kept as written, but no contract excludes that text, since a GraphQL error message can be the same text.
- The image fallbacks, the `isRefreshing` flag (never set by the code) and the `MediaAction` entries no branch handles (`SearchSubmitted`, `SetTrailerFullscreen`, `AdultCheckboxToggled`): the code does nothing with them.
- The use cases, which only forward to the repository, are not modelled; neither is the adult-content flag that the repository interface declares and the use cases do not pass.
- Repository.DetailsUiStateOf: `MediaRepositoryImpl.kt:69-70` wraps the mapped `MediaDetails` in `MediaDetailsUiState.Success`, whose field is the raw `MediaDetailsQuery.Media` (`MediaState.kt:26`), so the file does not type-check as shown. The model gives the repository its own `DetailsUiState`, whose success carries the mapped `MediaDetails`, and does not pick either type for the real program.
- Mappers.StudiosOf, Mappers.CharactersOf, Mappers.RecommendationsOf: the entries kept are stated through `Present`, the entries on which the entry mapper gives a value; `PresentMembers` says which entries those are.

## Findings

| source | as written | input that shows it | evidently intended | confidence | as-written member | corrected member |
|---|---|---|---|---|---|---|
| app/src/main/java/com/jdacodes/graphqlanimedemo/MediaList.kt:115-126 | the `derivedStateOf` lambda is created once inside `remember` and reads the plain `isLoading` parameter of the first composition, which is `false`, so `&& !isLoading` never blocks the trigger | items 8 and 9 of 10 visible while a page is loading: the trigger fires | no load-more trigger while a page is loading; as things stand, only the `!isLoading` guard of `loadMoreItems` (`MediaList.kt:72`) keeps a second fetch from starting | not executed; high | Pager.AsWrittenFiresWhileLoading | Pager.ShouldLoadMoreProperties |

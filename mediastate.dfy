/** The view model's state records (media/presentation/MediaState.kt): immutable
    records with default values, changed only by copying. */
module MediaStates {
  import opened Common
  import opened Schema

  /** The list part of the screen state. */
  datatype MediaListState = MediaListState(
    items: seq<Medium>,
    isLoading: bool,
    isRefreshing: bool,
    error: Option<string>,
    searchText: string,
    hasNextPage: bool,
    page: Int32,
    perPage: Int32)

  /** The detail part: exactly one of loading, an error message, or the fetched record. */
  datatype MediaDetailsUiState = Loading | Error(message: string) | Success(media: Media)

  datatype MediaDetailState = MediaDetailState(uiState: MediaDetailsUiState)

  datatype MediaState = MediaState(listState: MediaListState, detailState: MediaDetailState)

  const DefaultPerPage: Int32 := 10

  /** `MediaListState()` with every default argument. */
  function DefaultListState(): (s: MediaListState)
    ensures s.items == [] && !s.isLoading && !s.isRefreshing && s.error.None?
    ensures s.searchText == "" && s.hasNextPage && s.page == 1 && s.perPage == DefaultPerPage
  {
    MediaListState([], false, false, None, "", true, 1, 10)
  }

  /** `MediaDetailState()`: nothing fetched yet. */
  function DefaultDetailState(): (s: MediaDetailState)
    ensures s.uiState.Loading?
  {
    MediaDetailState(Loading)
  }

  /** `MediaState()`: the default list state beside the default detail state. */
  function DefaultMediaState(): (s: MediaState)
    ensures s.listState == DefaultListState()
    ensures s.detailState == DefaultDetailState()
  {
    MediaState(DefaultListState(), DefaultDetailState())
  }

  /** The three detail states are mutually exclusive and cover every value. */
  lemma DetailUiStateExclusive(u: MediaDetailsUiState)
    ensures (if u.Loading? then 1 else 0) + (if u.Error? then 1 else 0) + (if u.Success? then 1 else 0) == 1
  {
  }
}

/** How a raw query response is judged, and the repository
    (media/data/repository/MediaRepositoryImpl.kt) built on that judgement.
    The detail-response classification appears three times in the app (the
    repository, the view model and the older details composable); each decides,
    in the same order: GraphQL errors, then a network exception, then the
    presence of data, then a generic fallback. */
module Classification {
  import opened Common
  import opened Schema

  const NetworkMessage := "Please check your network connectivity."
  const GenericMessage := "Oh no... An error happened."

  /** The outcome of looking at one response, before it is turned into a UI state. */
  datatype Verdict = GraphQLErrors(firstMessage: string) | NetworkFailure | DataPresent | NoData

  /** The ordered checks of the `when` blocks: a non-empty error list wins, then
      a network exception, then whether the expected data is present. */
  function Classify<D>(r: Response<D>, hasData: bool): (v: Verdict)
    ensures v.GraphQLErrors? <==> r.errors.Some? && |r.errors.value| > 0
    ensures v.GraphQLErrors? ==> v.firstMessage == r.errors.value[0].message
    ensures v.NetworkFailure? <==>
      (r.errors.None? || |r.errors.value| == 0) && r.exception.Some? && r.exception.value.NetworkException?
    ensures v.DataPresent? <==>
      (r.errors.None? || |r.errors.value| == 0)
      && !(r.exception.Some? && r.exception.value.NetworkException?) && hasData
  {
    if r.errors.Some? && |r.errors.value| > 0 then GraphQLErrors(r.errors.value[0].message)
    else if r.exception.Some? && r.exception.value.NetworkException? then NetworkFailure
    else if hasData then DataPresent
    else NoData
  }

  /** The message a non-success verdict shows. */
  function FailureMessage(v: Verdict): string
    requires !v.DataPresent?
  {
    match v
    case GraphQLErrors(msg) => msg
    case NetworkFailure => NetworkMessage
    case NoData => GenericMessage
  }

  /** The data checked is irrelevant once an error list or a network exception
      is present: the earlier checks decide alone. */
  lemma EarlierChecksDecide<D>(r: Response<D>, a: bool, b: bool)
    requires (r.errors.Some? && |r.errors.value| > 0) || (r.exception.Some? && r.exception.value.NetworkException?)
    ensures Classify(r, a) == Classify(r, b)
    ensures !Classify(r, a).DataPresent? && !Classify(r, a).NoData?
  {
  }
}

module Repository {
  import opened Common
  import opened Schema
  import opened Domain
  import opened Mappers
  import opened Classification
  import VM = ViewModel

  /** A Kotlin exception, of which only the message is observable. */
  datatype Exception = Exception(message: Option<string>)

  /** `core.util.Result`: success with data, an error carrying an exception, or loading. */
  datatype Result<+T> = Success(data: T) | Error(exception: Exception) | Loading

  const PageDataNullMessage := "Page data is null"

  /** `getMediaList(page, perPage, search)`, given what executing the query did.
      The response's error list is not consulted: only whether the page is present. */
  function GetMediaList(outcome: Execution<MediaQueryData>): (r: Result<MediaListResult>)
    ensures !r.Loading?
    ensures outcome.Threw? ==> r == Error(Exception(outcome.message))
    ensures outcome.Returned? && outcome.response.data.Some? && outcome.response.data.value.page.Some? ==>
      r == Success(ToMediaListResult(outcome.response.data.value.page.value))
    ensures outcome.Returned? && !(outcome.response.data.Some? && outcome.response.data.value.page.Some?) ==>
      r == Error(Exception(Some(PageDataNullMessage)))
  {
    match outcome
    case Threw(msg) => Error(Exception(msg))
    case Returned(resp) =>
      var pageData := if resp.data.Some? then resp.data.value.page else None;
      match pageData
      case Some(p) => Success(ToMediaListResult(p))
      case None => Error(Exception(Some(PageDataNullMessage)))
  }

  /** The UI state the repository computes first (`newUiState`), before turning it into a Result. */
  datatype DetailsUiState = UiLoading | UiError(message: string) | UiSuccess(media: MediaDetails)

  /** The `when` block of `getMediaDetails`. */
  function DetailsUiStateOf(resp: Response<MediaDetailsData>): (u: DetailsUiState)
    ensures !u.UiLoading?
  {
    var media := if resp.data.Some? then resp.data.value.media else None;
    var v := Classify(resp, media.Some?);
    if v.DataPresent? then UiSuccess(ToMediaDetails(media.value)) else UiError(FailureMessage(v))
  }

  /** `getMediaDetails(mediaId)`, given what executing the query did. */
  function GetMediaDetails(outcome: Execution<MediaDetailsData>): (r: Result<MediaDetails>)
    ensures !r.Loading?
    ensures outcome.Threw? ==> r == Error(Exception(outcome.message))
  {
    match outcome
    case Threw(msg) => Error(Exception(msg))
    case Returned(resp) =>
      match DetailsUiStateOf(resp)
      case UiSuccess(d) => Success(d)
      case UiError(msg) => Error(Exception(Some(msg)))
      case UiLoading => Error(Exception(Some("Unexpected UI state")))
  }

  /** The ordered classification of a detail response that was returned:
      errors first, then a network exception, then Media present, then the fallback. */
  lemma GetMediaDetailsClassification(resp: Response<MediaDetailsData>)
    ensures resp.errors.Some? && |resp.errors.value| > 0 ==>
      GetMediaDetails(Returned(resp)) == Error(Exception(Some(resp.errors.value[0].message)))
    ensures (resp.errors.None? || |resp.errors.value| == 0)
            && resp.exception.Some? && resp.exception.value.NetworkException? ==>
      GetMediaDetails(Returned(resp)) == Error(Exception(Some(NetworkMessage)))
    ensures (resp.errors.None? || |resp.errors.value| == 0)
            && !(resp.exception.Some? && resp.exception.value.NetworkException?) ==>
      if resp.data.Some? && resp.data.value.media.Some? then
        GetMediaDetails(Returned(resp)) == Success(ToMediaDetails(resp.data.value.media.value))
      else
        GetMediaDetails(Returned(resp)) == Error(Exception(Some(GenericMessage)))
  {
  }

  /** A successful detail result always describes the media the response carried. */
  lemma GetMediaDetailsSuccessId(resp: Response<MediaDetailsData>)
    requires GetMediaDetails(Returned(resp)).Success?
    ensures resp.data.Some? && resp.data.value.media.Some?
    ensures GetMediaDetails(Returned(resp)).data.id == resp.data.value.media.value.id
  {
  }

  /** The repository and the view model classify a returned detail response
      alike: the same success (the repository's mapped from the view model's
      raw record) or the same error message. */
  lemma RepositoryAgreesWithViewModel(resp: Response<MediaDetailsData>)
    ensures VM.DetailResponseState(resp).Success? <==> GetMediaDetails(Returned(resp)).Success?
    ensures VM.DetailResponseState(resp).Success? ==>
      GetMediaDetails(Returned(resp)).data == ToMediaDetails(VM.DetailResponseState(resp).media)
    ensures VM.DetailResponseState(resp).Error? ==>
      GetMediaDetails(Returned(resp)) == Error(Exception(Some(VM.DetailResponseState(resp).message)))
  {
  }
}

/** The older detail screen (MediaDetails.kt at the package root): it refuses
    id 0, and otherwise starts in Loading and replaces that state once with
    the classification of the detail query's response. Unlike the view model,
    it succeeds on any non-null data, even when the data holds no Media. */
module LegacyDetails {
  import opened Common
  import opened Schema
  import opened Classification
  import VM = ViewModel

  /** The screen's private state. */
  datatype MediaDetailsState = Loading | Error(message: string) | Success(data: MediaDetailsData)

  const InvalidIdMessage := "Invalid media ID"

  /** The `when` block run on the response: errors, then a network exception,
      then any data at all, then the generic message. */
  function ClassifyResponse(resp: Response<MediaDetailsData>): (s: MediaDetailsState)
    ensures !s.Loading?
    ensures s.Success? <==>
      (resp.errors.None? || |resp.errors.value| == 0)
      && !(resp.exception.Some? && resp.exception.value.NetworkException?)
      && resp.data.Some?
    ensures s.Success? ==> s.data == resp.data.value
  {
    var v := Classify(resp, resp.data.Some?);
    if v.DataPresent? then Success(resp.data.value) else Error(FailureMessage(v))
  }

  /** The older screen and the view model agree on every response except one
      kind: data present with no Media in it, which the older screen shows as a
      success and the view model as the generic error. */
  lemma ScreensAgreeExceptEmptyMedia(resp: Response<MediaDetailsData>)
    ensures ClassifyResponse(resp).Error? && VM.DetailResponseState(resp).Error? ==>
      ClassifyResponse(resp).message == VM.DetailResponseState(resp).message
    ensures ClassifyResponse(resp).Success? && VM.DetailResponseState(resp).Success? ==>
      ClassifyResponse(resp).data.media == Some(VM.DetailResponseState(resp).media)
    ensures ClassifyResponse(resp).Success? != VM.DetailResponseState(resp).Success? <==>
      (resp.errors.None? || |resp.errors.value| == 0)
      && !(resp.exception.Some? && resp.exception.value.NetworkException?)
      && resp.data.Some? && resp.data.value.media.None?
  {
  }

  /** What the screen displays. */
  datatype Display = Spinner | Message(text: string) | Details(data: MediaDetailsData)

  class DetailsScreen {
    const id: Int32
    var state: MediaDetailsState
    /** The ids the screen has queried, oldest first. */
    var queries: seq<Int32>

    constructor(id: Int32)
      ensures this.id == id && state == Loading && queries == []
    {
      this.id := id;
      state := Loading;
      queries := [];
    }

    /** The composable's output: the invalid-id message for id 0, whatever
        the state; otherwise the state shown as a spinner, a message or the details. */
    function Shown(): (d: Display)
      reads this
      ensures id == 0 ==> d == Message(InvalidIdMessage)
      ensures id != 0 ==> (d.Spinner? <==> state.Loading?)
      ensures id != 0 && state.Error? ==> d == Message(state.message)
      ensures id != 0 && state.Success? ==> d == Details(state.data)
    {
      if id == 0 then Message(InvalidIdMessage)
      else match state
        case Loading => Spinner
        case Error(m) => Message(m)
        case Success(data) => Details(data)
    }

    /** The `LaunchedEffect(id)`: for id 0 it is never launched; otherwise it
        queries the id and stores the classified response. */
    method RunEffect(resp: Response<MediaDetailsData>)
      modifies this
      ensures id == 0 ==> state == old(state) && queries == old(queries)
      ensures id != 0 ==> state == ClassifyResponse(resp) && queries == old(queries) + [id]
    {
      if id != 0 {
        queries := queries + [id];
        state := ClassifyResponse(resp);
      }
    }
  }

  /** Opening the screen with id 0 shows the invalid-id message and issues
      no query, whatever response the network would have given. */
  method OpenWithIdZero(resp: Response<MediaDetailsData>) returns (shown: Display, queried: seq<Int32>)
    ensures shown == Message(InvalidIdMessage) && queried == []
  {
    var screen := new DetailsScreen(0);
    screen.RunEffect(resp);
    shown, queried := screen.Shown(), screen.queries;
  }
}

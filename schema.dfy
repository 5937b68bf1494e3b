/** The raw records of the two GraphQL queries the app issues (`MediaQuery` for
    a page of the media list, `MediaDetailsQuery` for one media record), as the
    Apollo client hands them over: almost every field nullable, lists with
    nullable entries. Also the Apollo response envelope and the outcome of
    executing a query. The schema's enums carry their Kotlin constant names. */
module Schema {
  import opened Common

  // ---------------------------------------------------------------------
  // Enums of the AniList schema (each with the client's fallback UNKNOWN__)

  datatype MediaFormat =
    | Tv | TvShort | Movie | Special | Ova | Ona | Music | Manga | Novel | OneShot
    | UnknownFormat

  datatype MediaSource =
    | Original | MangaSource | LightNovel | VisualNovel | VideoGame | Other
    | NovelSource | Doujinshi | Anime | WebNovel | LiveAction | Game | Comic
    | MultimediaProject | PictureBook | UnknownSource

  datatype MediaStatus = Finished | Releasing | NotYetReleased | Cancelled | Hiatus | UnknownStatus

  datatype MediaSeason = Winter | Spring | Summer | Fall | UnknownSeason

  datatype CharacterRole = Main | Supporting | Background | UnknownRole

  /** Kotlin `format.name`. */
  function FormatName(f: MediaFormat): string {
    match f
    case Tv => "TV"
    case TvShort => "TV_SHORT"
    case Movie => "MOVIE"
    case Special => "SPECIAL"
    case Ova => "OVA"
    case Ona => "ONA"
    case Music => "MUSIC"
    case Manga => "MANGA"
    case Novel => "NOVEL"
    case OneShot => "ONE_SHOT"
    case UnknownFormat => "UNKNOWN__"
  }

  /** Kotlin `source.name`. */
  function SourceName(s: MediaSource): string {
    match s
    case Original => "ORIGINAL"
    case MangaSource => "MANGA"
    case LightNovel => "LIGHT_NOVEL"
    case VisualNovel => "VISUAL_NOVEL"
    case VideoGame => "VIDEO_GAME"
    case Other => "OTHER"
    case NovelSource => "NOVEL"
    case Doujinshi => "DOUJINSHI"
    case Anime => "ANIME"
    case WebNovel => "WEB_NOVEL"
    case LiveAction => "LIVE_ACTION"
    case Game => "GAME"
    case Comic => "COMIC"
    case MultimediaProject => "MULTIMEDIA_PROJECT"
    case PictureBook => "PICTURE_BOOK"
    case UnknownSource => "UNKNOWN__"
  }

  /** Kotlin `status.name`. */
  function StatusName(s: MediaStatus): string {
    match s
    case Finished => "FINISHED"
    case Releasing => "RELEASING"
    case NotYetReleased => "NOT_YET_RELEASED"
    case Cancelled => "CANCELLED"
    case Hiatus => "HIATUS"
    case UnknownStatus => "UNKNOWN__"
  }

  /** Kotlin `season.name`, which is also what `"${season}"` renders. */
  function SeasonName(s: MediaSeason): string {
    match s
    case Winter => "WINTER"
    case Spring => "SPRING"
    case Summer => "SUMMER"
    case Fall => "FALL"
    case UnknownSeason => "UNKNOWN__"
  }

  /** Kotlin `role.name`. */
  function RoleName(r: CharacterRole): string {
    match r
    case Main => "MAIN"
    case Supporting => "SUPPORTING"
    case Background => "BACKGROUND"
    case UnknownRole => "UNKNOWN__"
  }

  /** The inverse of FormatName and friends: the schema value a constant name denotes. */
  function FormatFromName(n: string): Option<MediaFormat> {
    if n == "TV" then Some(Tv) else if n == "TV_SHORT" then Some(TvShort)
    else if n == "MOVIE" then Some(Movie) else if n == "SPECIAL" then Some(Special)
    else if n == "OVA" then Some(Ova) else if n == "ONA" then Some(Ona)
    else if n == "MUSIC" then Some(Music) else if n == "MANGA" then Some(Manga)
    else if n == "NOVEL" then Some(Novel) else if n == "ONE_SHOT" then Some(OneShot)
    else if n == "UNKNOWN__" then Some(UnknownFormat) else None
  }

  function SourceFromName(n: string): Option<MediaSource> {
    if n == "ORIGINAL" then Some(Original) else if n == "MANGA" then Some(MangaSource)
    else if n == "LIGHT_NOVEL" then Some(LightNovel) else if n == "VISUAL_NOVEL" then Some(VisualNovel)
    else if n == "VIDEO_GAME" then Some(VideoGame) else if n == "OTHER" then Some(Other)
    else if n == "NOVEL" then Some(NovelSource) else if n == "DOUJINSHI" then Some(Doujinshi)
    else if n == "ANIME" then Some(Anime) else if n == "WEB_NOVEL" then Some(WebNovel)
    else if n == "LIVE_ACTION" then Some(LiveAction) else if n == "GAME" then Some(Game)
    else if n == "COMIC" then Some(Comic) else if n == "MULTIMEDIA_PROJECT" then Some(MultimediaProject)
    else if n == "PICTURE_BOOK" then Some(PictureBook) else if n == "UNKNOWN__" then Some(UnknownSource)
    else None
  }

  function StatusFromName(n: string): Option<MediaStatus> {
    if n == "FINISHED" then Some(Finished) else if n == "RELEASING" then Some(Releasing)
    else if n == "NOT_YET_RELEASED" then Some(NotYetReleased) else if n == "CANCELLED" then Some(Cancelled)
    else if n == "HIATUS" then Some(Hiatus) else if n == "UNKNOWN__" then Some(UnknownStatus)
    else None
  }

  function SeasonFromName(n: string): Option<MediaSeason> {
    if n == "WINTER" then Some(Winter) else if n == "SPRING" then Some(Spring)
    else if n == "SUMMER" then Some(Summer) else if n == "FALL" then Some(Fall)
    else if n == "UNKNOWN__" then Some(UnknownSeason) else None
  }

  function RoleFromName(n: string): Option<CharacterRole> {
    if n == "MAIN" then Some(Main) else if n == "SUPPORTING" then Some(Supporting)
    else if n == "BACKGROUND" then Some(Background) else if n == "UNKNOWN__" then Some(UnknownRole)
    else None
  }

  /** The enum names the mappers store are lossless: each can be read back. */
  lemma FormatNameRoundTrip(f: MediaFormat)
    ensures FormatFromName(FormatName(f)) == Some(f)
  {
  }

  lemma SourceNameRoundTrip(s: MediaSource)
    ensures SourceFromName(SourceName(s)) == Some(s)
  {
  }

  lemma StatusNameRoundTrip(s: MediaStatus)
    ensures StatusFromName(StatusName(s)) == Some(s)
  {
  }

  lemma SeasonNameRoundTrip(s: MediaSeason)
    ensures SeasonFromName(SeasonName(s)) == Some(s)
  {
  }

  lemma RoleNameRoundTrip(r: CharacterRole)
    ensures RoleFromName(RoleName(r)) == Some(r)
  {
  }

  // ---------------------------------------------------------------------
  // Shared nested records

  datatype StudioNode = StudioNode(name: string)
  datatype StudioEdge = StudioEdge(isMain: bool, node: Option<StudioNode>)
  datatype Studios = Studios(edges: Option<seq<Option<StudioEdge>>>)

  // ---------------------------------------------------------------------
  // MediaQuery: one page of the media list

  datatype ListTitle = ListTitle(english: Option<string>, romaji: Option<string>)
  datatype ListCoverImage = ListCoverImage(medium: Option<string>, large: Option<string>)

  /** `MediaQuery.Medium`: one entry of a page. */
  datatype Medium = Medium(
    id: Int32,
    title: Option<ListTitle>,
    description: Option<string>,
    coverImage: Option<ListCoverImage>,
    averageScore: Option<Int32>,
    studios: Option<Studios>)

  /** `MediaQuery.PageInfo`. */
  datatype RawPageInfo = RawPageInfo(
    hasNextPage: Option<bool>,
    currentPage: Option<Int32>,
    lastPage: Option<Int32>,
    perPage: Option<Int32>)

  /** `MediaQuery.Page`. */
  datatype Page = Page(pageInfo: Option<RawPageInfo>, media: Option<seq<Option<Medium>>>)

  /** `MediaQuery.Data`. */
  datatype MediaQueryData = MediaQueryData(page: Option<Page>)

  // ---------------------------------------------------------------------
  // MediaDetailsQuery: one media record with its nested lists

  datatype Title = Title(english: Option<string>, native: Option<string>, romaji: Option<string>)
  datatype CoverImage = CoverImage(extraLarge: Option<string>, large: Option<string>)
  datatype FuzzyDate = FuzzyDate(day: Option<Int32>, month: Option<Int32>, year: Option<Int32>)
  datatype TrendNode = TrendNode(episode: Option<Int32>)
  datatype Trends = Trends(nodes: Option<seq<Option<TrendNode>>>)
  datatype Trailer = Trailer(id: Option<string>, site: Option<string>, thumbnail: Option<string>)
  datatype Tag = Tag(name: string, rank: Option<Int32>)
  datatype PersonName = PersonName(full: Option<string>)
  datatype PersonImage = PersonImage(large: Option<string>, medium: Option<string>)
  datatype VoiceActor = VoiceActor(name: Option<PersonName>)
  datatype VoiceActorRole = VoiceActorRole(voiceActor: Option<VoiceActor>)
  datatype CharacterNode = CharacterNode(id: Int32, name: Option<PersonName>, image: Option<PersonImage>)
  datatype CharacterEdge = CharacterEdge(
    node: Option<CharacterNode>,
    role: Option<CharacterRole>,
    voiceActorRoles: Option<seq<Option<VoiceActorRole>>>)
  datatype Characters = Characters(edges: Option<seq<Option<CharacterEdge>>>)
  datatype StaffNode = StaffNode(
    id: Int32,
    name: Option<PersonName>,
    primaryOccupations: Option<seq<Option<string>>>,
    image: Option<PersonImage>)
  datatype Staff = Staff(nodes: Option<seq<Option<StaffNode>>>)
  datatype RecommendedMedia = RecommendedMedia(
    coverImage: Option<CoverImage>,
    meanScore: Option<Int32>,
    episodes: Option<Int32>,
    title: Option<Title>)
  datatype RecommendationNode = RecommendationNode(id: Int32, mediaRecommendation: Option<RecommendedMedia>)
  datatype Recommendations = Recommendations(nodes: Option<seq<Option<RecommendationNode>>>)

  /** `MediaDetailsQuery.Media`. */
  datatype Media = Media(
    id: Int32,
    bannerImage: Option<string>,
    averageScore: Option<Int32>,
    title: Option<Title>,
    description: Option<string>,
    studios: Option<Studios>,
    coverImage: Option<CoverImage>,
    meanScore: Option<Int32>,
    status: Option<MediaStatus>,
    episodes: Option<Int32>,
    trends: Option<Trends>,
    format: Option<MediaFormat>,
    source: Option<MediaSource>,
    season: Option<MediaSeason>,
    seasonYear: Option<Int32>,
    startDate: Option<FuzzyDate>,
    endDate: Option<FuzzyDate>,
    popularity: Option<Int32>,
    favourites: Option<Int32>,
    synonyms: Option<seq<Option<string>>>,
    trailer: Option<Trailer>,
    genres: Option<seq<Option<string>>>,
    tags: Option<seq<Option<Tag>>>,
    characters: Option<Characters>,
    staff: Option<Staff>,
    recommendations: Option<Recommendations>)

  /** `MediaDetailsQuery.Data`. */
  datatype MediaDetailsData = MediaDetailsData(media: Option<Media>)

  // ---------------------------------------------------------------------
  // The Apollo response envelope

  /** One entry of a GraphQL response's `errors` list. */
  datatype GraphQLError = GraphQLError(message: string)

  /** The exception an Apollo response may carry; only the network kind is told apart. */
  datatype ApolloException = NetworkException(message: Option<string>) | OtherApolloException(message: Option<string>)

  /** `ApolloResponse<D>`: data, GraphQL errors and a transport exception, each optional. */
  datatype Response<D> = Response(
    data: Option<D>,
    errors: Option<seq<GraphQLError>>,
    exception: Option<ApolloException>)

  /** What `query(...).execute()` does: return a response, or throw an exception
      with an optional message. */
  datatype Execution<D> = Returned(response: Response<D>) | Threw(message: Option<string>)
}

/** The app's domain records (media/domain/model): what the repository hands
    to its callers once a raw query response has been mapped. */
module Domain {
  import opened Common

  datatype Studio = Studio(isMain: bool, name: string)

  /** One entry of the media list. */
  datatype MediaListItem = MediaListItem(
    id: Int32,
    titleEnglish: Option<string>,
    titleRomaji: Option<string>,
    description: Option<string>,
    coverImageMedium: Option<string>,
    coverImageLarge: Option<string>,
    averageScore: Option<Int32>,
    studios: seq<Studio>)

  /** Where one page of the list sits in the whole result. */
  datatype PageInfo = PageInfo(hasNextPage: bool, currentPage: Int32, lastPage: Int32, perPage: Int32)

  datatype MediaListResult = MediaListResult(items: seq<MediaListItem>, pageInfo: PageInfo)

  datatype TrendItem = TrendItem(episode: Option<Int32>)
  datatype DateParts = DateParts(day: Option<Int32>, month: Option<Int32>, year: Option<Int32>)
  datatype TrailerItem = TrailerItem(id: Option<string>, site: Option<string>, thumbnail: Option<string>)
  datatype TagItem = TagItem(name: string, rank: Option<Int32>)

  datatype CharacterItem = CharacterItem(
    id: Int32,
    name: Option<string>,
    imageLarge: Option<string>,
    imageMedium: Option<string>,
    role: Option<string>,
    voiceActorNames: seq<string>)

  datatype StaffItem = StaffItem(
    id: Int32,
    name: Option<string>,
    primaryOccupations: Option<seq<Option<string>>>,
    imageLarge: Option<string>,
    imageMedium: Option<string>)

  datatype RecommendationItem = RecommendationItem(
    id: Int32,
    coverImageExtraLarge: Option<string>,
    coverImageLarge: Option<string>,
    meanScore: Option<Int32>,
    episodes: Option<Int32>,
    titleEnglish: Option<string>,
    titleNative: Option<string>,
    titleRomaji: Option<string>)

  /** The full record of one media entry. Enum-valued fields hold the enum's name. */
  datatype MediaDetails = MediaDetails(
    bannerImage: Option<string>,
    averageScore: Option<Int32>,
    titleEnglish: Option<string>,
    titleNative: Option<string>,
    titleRomaji: Option<string>,
    description: Option<string>,
    id: Int32,
    studios: seq<Studio>,
    coverImageLarge: Option<string>,
    meanScore: Option<Int32>,
    status: Option<string>,
    episodes: Option<Int32>,
    trends: seq<TrendItem>,
    format: Option<string>,
    source: Option<string>,
    season: Option<string>,
    seasonYear: Option<Int32>,
    startDate: Option<DateParts>,
    endDate: Option<DateParts>,
    popularity: Option<Int32>,
    favourites: Option<Int32>,
    synonyms: seq<Option<string>>,
    trailer: Option<TrailerItem>,
    genres: seq<Option<string>>,
    tags: seq<TagItem>,
    characters: seq<CharacterItem>,
    staff: seq<StaffItem>,
    recommendations: seq<RecommendationItem>)
}

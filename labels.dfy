/** The display labels of the detail tabs: the lookup tables `toFormatString`,
    `toSourceString`, `toStringMonth` and `toRoleString`. The two revisions of
    the tab screen (TabContent.kt at the package root, and its successor under
    media/presentation/composable) carry identical format, source and month
    tables, so each is defined once here. Each table comes with its reading
    back, which shows that no two table entries share a label. */
module Labels {
  import opened Common
  import opened Schema

  const UnknownLabel := "Unknown"

  /** `MediaFormat.toFormatString()`: a label per named format, "Unknown" otherwise. */
  function FormatLabel(f: MediaFormat): (r: string)
    ensures r == UnknownLabel <==> f == UnknownFormat
  {
    match f
    case Tv => "TV"
    case TvShort => "TV Short"
    case Movie => "Movie"
    case Special => "Special"
    case Ova => "OVA"
    case Ona => "ONA"
    case Music => "Music"
    case Manga => "Manga"
    case Novel => "Novel"
    case OneShot => "One Shot"
    case UnknownFormat => "Unknown"
  }

  /** The format a label names. */
  function FormatOfLabel(l: string): Option<MediaFormat> {
    if l == "TV" then Some(Tv) else if l == "TV Short" then Some(TvShort)
    else if l == "Movie" then Some(Movie) else if l == "Special" then Some(Special)
    else if l == "OVA" then Some(Ova) else if l == "ONA" then Some(Ona)
    else if l == "Music" then Some(Music) else if l == "Manga" then Some(Manga)
    else if l == "Novel" then Some(Novel) else if l == "One Shot" then Some(OneShot)
    else if l == "Unknown" then Some(UnknownFormat) else None
  }

  /** Every format label reads back as its format, so the labels are pairwise distinct. */
  lemma FormatLabelRoundTrip(f: MediaFormat)
    ensures FormatOfLabel(FormatLabel(f)) == Some(f)
  {
  }

  /** `MediaSource.toSourceString()`: total over all sixteen values. */
  function SourceLabel(s: MediaSource): (r: string)
    ensures r == UnknownLabel <==> s == UnknownSource
  {
    match s
    case Original => "Original"
    case MangaSource => "Manga"
    case LightNovel => "Light Novel"
    case VisualNovel => "Visual Novel"
    case VideoGame => "Video Game"
    case Other => "Other"
    case NovelSource => "Novel"
    case Doujinshi => "Doujinshi"
    case Anime => "Anime"
    case WebNovel => "Web Novel"
    case LiveAction => "Live Action"
    case Game => "Game"
    case Comic => "Comic"
    case MultimediaProject => "Multimedia Project"
    case PictureBook => "Picture Book"
    case UnknownSource => "Unknown"
  }

  /** The source a label names. */
  function SourceOfLabel(l: string): Option<MediaSource> {
    if l == "Original" then Some(Original) else if l == "Manga" then Some(MangaSource)
    else if l == "Light Novel" then Some(LightNovel) else if l == "Visual Novel" then Some(VisualNovel)
    else if l == "Video Game" then Some(VideoGame) else if l == "Other" then Some(Other)
    else if l == "Novel" then Some(NovelSource) else if l == "Doujinshi" then Some(Doujinshi)
    else if l == "Anime" then Some(Anime) else if l == "Web Novel" then Some(WebNovel)
    else if l == "Live Action" then Some(LiveAction) else if l == "Game" then Some(Game)
    else if l == "Comic" then Some(Comic) else if l == "Multimedia Project" then Some(MultimediaProject)
    else if l == "Picture Book" then Some(PictureBook) else if l == "Unknown" then Some(UnknownSource)
    else None
  }

  /** Every source label reads back as its source. */
  lemma SourceLabelRoundTrip(s: MediaSource)
    ensures SourceOfLabel(SourceLabel(s)) == Some(s)
  {
  }

  const MonthNames := ["January", "February", "March", "April", "May", "June", "July",
                       "August", "September", "October", "November", "December"]

  /** `Int.toStringMonth()`: the English name of months 1 to 12, a single space otherwise. */
  function MonthLabel(m: int): (r: string)
    ensures 1 <= m <= 12 ==> r == MonthNames[m - 1]
    ensures !(1 <= m <= 12) ==> r == " "
  {
    if m == 1 then "January" else if m == 2 then "February" else if m == 3 then "March"
    else if m == 4 then "April" else if m == 5 then "May" else if m == 6 then "June"
    else if m == 7 then "July" else if m == 8 then "August" else if m == 9 then "September"
    else if m == 10 then "October" else if m == 11 then "November" else if m == 12 then "December"
    else " "
  }

  /** The month number a month name stands for. */
  function MonthOfLabel(l: string): Option<int> {
    if l == "January" then Some(1) else if l == "February" then Some(2) else if l == "March" then Some(3)
    else if l == "April" then Some(4) else if l == "May" then Some(5) else if l == "June" then Some(6)
    else if l == "July" then Some(7) else if l == "August" then Some(8) else if l == "September" then Some(9)
    else if l == "October" then Some(10) else if l == "November" then Some(11) else if l == "December" then Some(12)
    else None
  }

  /** A month in range reads back as itself, and the fallback names no month. */
  lemma MonthLabelRoundTrip(m: int)
    ensures 1 <= m <= 12 ==> MonthOfLabel(MonthLabel(m)) == Some(m)
    ensures !(1 <= m <= 12) ==> MonthOfLabel(MonthLabel(m)) == None
  {
  }

  /** Real months have different labels. */
  lemma MonthLabelInjective(m1: int, m2: int)
    requires 1 <= m1 <= 12 && 1 <= m2 <= 12 && MonthLabel(m1) == MonthLabel(m2)
    ensures m1 == m2
  {
    MonthLabelRoundTrip(m1);
    MonthLabelRoundTrip(m2);
  }

  /** `CharacterRole.toRoleString()`: three named roles, "Unknown" otherwise. */
  function RoleLabel(r: CharacterRole): (l: string)
    ensures l == UnknownLabel <==> r == UnknownRole
  {
    match r
    case Main => "Main"
    case Supporting => "Supporting"
    case Background => "Background"
    case UnknownRole => "Unknown"
  }

  /** The role a label names. */
  function RoleOfLabel(l: string): Option<CharacterRole> {
    if l == "Main" then Some(Main) else if l == "Supporting" then Some(Supporting)
    else if l == "Background" then Some(Background) else if l == "Unknown" then Some(UnknownRole)
    else None
  }

  /** Every role label reads back as its role. */
  lemma RoleLabelRoundTrip(r: CharacterRole)
    ensures RoleOfLabel(RoleLabel(r)) == Some(r)
  {
  }
}

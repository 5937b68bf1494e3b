/** The mappers of media/domain/util: pure functions from the raw query
    records to the domain records. An absent value becomes an absent value,
    an empty list or a zero default; null list entries are dropped. */
module Mappers {
  import opened Common
  import opened Schema
  import opened Domain

  // ---------------------------------------------------------------------
  // Studios (shared by the list and the detail mapper)

  /** `edge?.node?.let { Studio(isMain = edge.isMain, name = it.name) }` */
  function StudioOf(edge: Option<StudioEdge>): (r: Option<Studio>)
    ensures r.Some? <==> edge.Some? && edge.value.node.Some?
    ensures r.Some? ==> r.value == Studio(edge.value.isMain, edge.value.node.value.name)
  {
    match edge
    case None => None
    case Some(e) =>
      match e.node
      case None => None
      case Some(n) => Some(Studio(e.isMain, n.name))
  }

  /** `studios?.edges?.mapNotNull { ... } ?: emptyList()` */
  function StudiosOf(studios: Option<Studios>): (r: seq<Studio>)
    ensures studios.None? || studios.value.edges.None? ==> r == []
    ensures studios.Some? && studios.value.edges.Some? ==>
      var es := studios.value.edges.value;
      && (forall i :: 0 <= i < |es| && es[i].Some? && es[i].value.node.Some? ==>
            Studio(es[i].value.isMain, es[i].value.node.value.name) in r)
      && (forall k :: 0 <= k < |r| ==> exists i :: 0 <= i < |es| && StudioOf(es[i]) == Some(r[k]))
      && |r| == |Present(es, StudioOf)|
      && (forall k :: 0 <= k < |r| ==>
            var e := Present(es, StudioOf)[k];
            e.Some? && e.value.node.Some? && r[k] == Studio(e.value.isMain, e.value.node.value.name))
  {
    match studios
    case None => []
    case Some(s) =>
      match s.edges
      case None => []
      case Some(es) =>
        var r := MapNotNull(es, StudioOf);
        assert forall k :: 0 <= k < |r| ==> r[k] in r;
        MapNotNullEntries(es, StudioOf);
        r
  }

  /** Studios keep the order of their edges: the studios of a concatenation of
      edge lists are the studios of the first list followed by those of the second. */
  lemma StudiosKeepOrder(a: seq<Option<StudioEdge>>, b: seq<Option<StudioEdge>>)
    ensures StudiosOf(Some(Studios(Some(a + b)))) == StudiosOf(Some(Studios(Some(a)))) + StudiosOf(Some(Studios(Some(b))))
  {
    MapNotNullAppend(a, b, StudioOf);
  }

  // ---------------------------------------------------------------------
  // PageInfoMapper.kt

  /** `MediaQuery.PageInfo.toDomainPageInfo()`: each absent field takes its default. */
  function ToDomainPageInfo(p: RawPageInfo): (r: PageInfo)
    ensures r.hasNextPage <==> p.hasNextPage == Some(true)
    ensures p.currentPage.None? ==> r.currentPage == 0
    ensures p.lastPage.None? ==> r.lastPage == 0
    ensures p.perPage.None? ==> r.perPage == 0
    ensures p.currentPage.Some? ==> r.currentPage == p.currentPage.value
    ensures p.lastPage.Some? ==> r.lastPage == p.lastPage.value
    ensures p.perPage.Some? ==> r.perPage == p.perPage.value
  {
    PageInfo(p.hasNextPage.GetOr(false), p.currentPage.GetOr(0), p.lastPage.GetOr(0), p.perPage.GetOr(0))
  }

  /** The fully populated raw page info that carries a domain page info. */
  function ToRawPageInfo(p: PageInfo): RawPageInfo {
    RawPageInfo(Some(p.hasNextPage), Some(p.currentPage), Some(p.lastPage), Some(p.perPage))
  }

  /** Mapping a fully populated page info is the identity on all four fields. */
  lemma PageInfoRoundTrip(p: PageInfo)
    ensures ToDomainPageInfo(ToRawPageInfo(p)) == p
  {
  }

  /** Conversely, a raw page info survives the trip through the domain
      exactly when all four of its fields are present. */
  lemma PageInfoLossless(p: RawPageInfo)
    ensures ToRawPageInfo(ToDomainPageInfo(p)) == p <==>
      p.hasNextPage.Some? && p.currentPage.Some? && p.lastPage.Some? && p.perPage.Some?
  {
  }

  // ---------------------------------------------------------------------
  // MediaMapper.kt

  /** `MediaQuery.Medium.toMediaListItem()` */
  function ToMediaListItem(m: Medium): (r: MediaListItem)
    ensures r.id == m.id
    ensures m.title.None? ==> r.titleEnglish.None? && r.titleRomaji.None?
    ensures m.title.Some? ==> r.titleEnglish == m.title.value.english && r.titleRomaji == m.title.value.romaji
    ensures m.coverImage.None? ==> r.coverImageMedium.None? && r.coverImageLarge.None?
    ensures m.coverImage.Some? ==>
      r.coverImageMedium == m.coverImage.value.medium && r.coverImageLarge == m.coverImage.value.large
    ensures r.description == m.description && r.averageScore == m.averageScore
    ensures r.studios == StudiosOf(m.studios)
  {
    MediaListItem(
      id := m.id,
      titleEnglish := if m.title.Some? then m.title.value.english else None,
      titleRomaji := if m.title.Some? then m.title.value.romaji else None,
      description := m.description,
      coverImageMedium := if m.coverImage.Some? then m.coverImage.value.medium else None,
      coverImageLarge := if m.coverImage.Some? then m.coverImage.value.large else None,
      averageScore := m.averageScore,
      studios := StudiosOf(m.studios))
  }

  // ---------------------------------------------------------------------
  // MediaListMapper.kt

  /** The default page info used when a page carries none. */
  const AbsentPageInfo := PageInfo(false, 0, 0, 0)

  /** `MediaQuery.Page.toMediaListResult()` */
  function ToMediaListResult(page: Page): (r: MediaListResult)
    ensures page.media.None? ==> r.items == []
    ensures page.media.Some? ==>
      && |r.items| == CountPresent(page.media.value)
      && forall i :: 0 <= i < |r.items| ==> r.items[i] == ToMediaListItem(FilterNotNull(page.media.value)[i])
    ensures page.pageInfo.None? ==> r.pageInfo == AbsentPageInfo
    ensures page.pageInfo.Some? ==> r.pageInfo == ToDomainPageInfo(page.pageInfo.value)
  {
    var items :=
      match page.media
      case None => []
      case Some(ms) =>
        var present := FilterNotNull(ms);
        seq(|present|, i requires 0 <= i < |present| => ToMediaListItem(present[i]));
    var info :=
      match page.pageInfo
      case None => AbsentPageInfo
      case Some(p) => ToDomainPageInfo(p);
    MediaListResult(items, info)
  }

  /** The list items are the non-null raw media in their order: their ids are,
      entry by entry, the ids of the non-null raw entries. */
  lemma ListResultIds(page: Page, ms: seq<Option<Medium>>)
    requires page.media == Some(ms)
    ensures |ToMediaListResult(page).items| == |FilterNotNull(ms)|
    ensures forall i :: 0 <= i < |FilterNotNull(ms)| ==>
      ToMediaListResult(page).items[i].id == FilterNotNull(ms)[i].id
  {
  }

  // ---------------------------------------------------------------------
  // MediaDetailMapper.kt, entry by entry

  /** `trends?.nodes?.map { TrendItem(episode = it?.episode) } ?: emptyList()`: one item per node, nulls included. */
  function TrendsOf(trends: Option<Trends>): (r: seq<TrendItem>)
    ensures trends.None? || trends.value.nodes.None? ==> r == []
    ensures trends.Some? && trends.value.nodes.Some? ==>
      var ns := trends.value.nodes.value;
      && |r| == |ns|
      && forall i :: 0 <= i < |ns| ==>
           r[i] == TrendItem(if ns[i].Some? then ns[i].value.episode else None)
  {
    match trends
    case None => []
    case Some(t) =>
      match t.nodes
      case None => []
      case Some(ns) =>
        seq(|ns|, i requires 0 <= i < |ns| => TrendItem(if ns[i].Some? then ns[i].value.episode else None))
  }

  /** `date?.let { DateParts(it.day, it.month, it.year) }` */
  function DatePartsOf(d: Option<FuzzyDate>): (r: Option<DateParts>)
    ensures r.Some? <==> d.Some?
    ensures r.Some? ==>
      r.value.day == d.value.day && r.value.month == d.value.month && r.value.year == d.value.year
  {
    match d
    case None => None
    case Some(f) => Some(DateParts(f.day, f.month, f.year))
  }

  function TrailerOf(t: Option<Trailer>): (r: Option<TrailerItem>)
    ensures r.Some? <==> t.Some?
    ensures r.Some? ==>
      r.value.id == t.value.id && r.value.site == t.value.site && r.value.thumbnail == t.value.thumbnail
  {
    match t
    case None => None
    case Some(x) => Some(TrailerItem(x.id, x.site, x.thumbnail))
  }

  /** `tag?.let { TagItem(name = it.name, rank = it.rank) }` */
  function TagOf(t: Option<Tag>): (r: Option<TagItem>)
    ensures r.Some? <==> t.Some?
    ensures r.Some? ==> r.value.name == t.value.name && r.value.rank == t.value.rank
  {
    match t
    case None => None
    case Some(x) => Some(TagItem(x.name, x.rank))
  }

  /** `tags?.mapNotNull { ... } ?: emptyList()` */
  function TagsOf(tags: Option<seq<Option<Tag>>>): (r: seq<TagItem>)
    ensures tags.None? ==> r == []
    ensures tags.Some? ==> |r| == CountPresent(tags.value)
    ensures tags.Some? ==> forall i :: 0 <= i < |r| ==>
      r[i] == TagItem(FilterNotNull(tags.value)[i].name, FilterNotNull(tags.value)[i].rank)
  {
    match tags
    case None => []
    case Some(ts) =>
      var present := FilterNotNull(ts);
      seq(|present|, i requires 0 <= i < |present| => TagItem(present[i].name, present[i].rank))
  }

  /** `it?.voiceActor?.name?.full` */
  function VoiceActorNameOf(r: Option<VoiceActorRole>): (n: Option<string>)
    ensures n.Some? <==>
      r.Some? && r.value.voiceActor.Some? && r.value.voiceActor.value.name.Some?
      && r.value.voiceActor.value.name.value.full.Some?
  {
    match r
    case None => None
    case Some(role) =>
      match role.voiceActor
      case None => None
      case Some(va) =>
        match va.name
        case None => None
        case Some(pn) => pn.full
  }

  /** The character of one edge, when the edge and its node are present. */
  function CharacterOf(edge: Option<CharacterEdge>): (r: Option<CharacterItem>)
    ensures r.Some? <==> edge.Some? && edge.value.node.Some?
    ensures r.Some? ==>
      var e := edge.value;
      var n := e.node.value;
      && r.value.id == n.id
      && r.value.name == (if n.name.Some? then n.name.value.full else None)
      && r.value.imageLarge == (if n.image.Some? then n.image.value.large else None)
      && r.value.imageMedium == (if n.image.Some? then n.image.value.medium else None)
      && r.value.role == (if e.role.Some? then Some(RoleName(e.role.value)) else None)
      && r.value.voiceActorNames ==
           (if e.voiceActorRoles.Some? then MapNotNull(e.voiceActorRoles.value, VoiceActorNameOf) else [])
  {
    match edge
    case None => None
    case Some(e) =>
      match e.node
      case None => None
      case Some(n) =>
        Some(CharacterItem(
          id := n.id,
          name := if n.name.Some? then n.name.value.full else None,
          imageLarge := if n.image.Some? then n.image.value.large else None,
          imageMedium := if n.image.Some? then n.image.value.medium else None,
          role := if e.role.Some? then Some(RoleName(e.role.value)) else None,
          voiceActorNames :=
            match e.voiceActorRoles
            case None => []
            case Some(rs) => MapNotNull(rs, VoiceActorNameOf)))
  }

  /** Voice actor names are exactly the full names that are present: one per
      role whose chain of records reaches a full name, in the order of the roles. */
  lemma VoiceActorNamesArePresentFullNames(rs: seq<Option<VoiceActorRole>>)
    ensures forall i :: 0 <= i < |rs| && rs[i].Some? && rs[i].value.voiceActor.Some?
                        && rs[i].value.voiceActor.value.name.Some?
                        && rs[i].value.voiceActor.value.name.value.full.Some? ==>
              rs[i].value.voiceActor.value.name.value.full.value in MapNotNull(rs, VoiceActorNameOf)
    ensures |MapNotNull(rs, VoiceActorNameOf)| == |Present(rs, VoiceActorNameOf)|
    ensures forall k :: 0 <= k < |Present(rs, VoiceActorNameOf)| ==>
      var role := Present(rs, VoiceActorNameOf)[k];
      && role.Some? && role.value.voiceActor.Some? && role.value.voiceActor.value.name.Some?
      && role.value.voiceActor.value.name.value.full.Some?
      && MapNotNull(rs, VoiceActorNameOf)[k] == role.value.voiceActor.value.name.value.full.value
  {
    MapNotNullEntries(rs, VoiceActorNameOf);
  }

  function CharactersOf(cs: Option<Characters>): (r: seq<CharacterItem>)
    ensures cs.None? || cs.value.edges.None? ==> r == []
    ensures cs.Some? && cs.value.edges.Some? ==>
      var es := cs.value.edges.value;
      && (forall i :: 0 <= i < |es| && es[i].Some? && es[i].value.node.Some? ==> CharacterOf(es[i]).value in r)
      && (forall k :: 0 <= k < |r| ==> exists i :: 0 <= i < |es| && CharacterOf(es[i]) == Some(r[k]))
      && |r| == |Present(es, CharacterOf)|
      && (forall k :: 0 <= k < |r| ==>
            var e := Present(es, CharacterOf)[k];
            e.Some? && e.value.node.Some? && r[k] == CharacterOf(e).value)
  {
    match cs
    case None => []
    case Some(c) =>
      match c.edges
      case None => []
      case Some(es) =>
        var r := MapNotNull(es, CharacterOf);
        assert forall k :: 0 <= k < |r| ==> r[k] in r;
        MapNotNullEntries(es, CharacterOf);
        r
  }

  /** `node?.let { StaffItem(...) }` */
  function StaffOf(node: Option<StaffNode>): (r: Option<StaffItem>)
    ensures r.Some? <==> node.Some?
    ensures r.Some? ==>
      && r.value.id == node.value.id
      && r.value.name == (if node.value.name.Some? then node.value.name.value.full else None)
      && r.value.primaryOccupations == node.value.primaryOccupations
      && r.value.imageLarge == (if node.value.image.Some? then node.value.image.value.large else None)
      && r.value.imageMedium == (if node.value.image.Some? then node.value.image.value.medium else None)
  {
    match node
    case None => None
    case Some(n) =>
      Some(StaffItem(
        id := n.id,
        name := if n.name.Some? then n.name.value.full else None,
        primaryOccupations := n.primaryOccupations,
        imageLarge := if n.image.Some? then n.image.value.large else None,
        imageMedium := if n.image.Some? then n.image.value.medium else None))
  }

  /** `staff?.nodes?.mapNotNull { node -> node?.let { StaffItem(...) } } ?: emptyList()` */
  function StaffListOf(staff: Option<Staff>): (r: seq<StaffItem>)
    ensures staff.None? || staff.value.nodes.None? ==> r == []
    ensures staff.Some? && staff.value.nodes.Some? ==>
      var ns := staff.value.nodes.value;
      && |r| == CountPresent(ns)
      && forall i :: 0 <= i < |r| ==> r[i] == StaffOf(Some(FilterNotNull(ns)[i])).value
  {
    match staff
    case None => []
    case Some(s) =>
      match s.nodes
      case None => []
      case Some(ns) =>
        StaffKeepsNonNullNodes(ns);
        MapNotNull(ns, StaffOf)
  }

  /** For staff, mapNotNull drops exactly the null nodes and maps the others in order. */
  lemma {:induction false} StaffKeepsNonNullNodes(ns: seq<Option<StaffNode>>)
    ensures |MapNotNull(ns, StaffOf)| == CountPresent(ns)
    ensures forall i :: 0 <= i < |MapNotNull(ns, StaffOf)| ==>
      MapNotNull(ns, StaffOf)[i] == StaffOf(Some(FilterNotNull(ns)[i])).value
    decreases |ns|
  {
    if ns != [] {
      var tail := ns[1..];
      StaffKeepsNonNullNodes(tail);
      var r, p := MapNotNull(tail, StaffOf), FilterNotNull(tail);
      if ns[0].Some? {
        var a, b := MapNotNull(ns, StaffOf), FilterNotNull(ns);
        assert a == [StaffOf(ns[0]).value] + r;
        assert b == [ns[0].value] + p;
        forall i | 0 < i < |a| ensures a[i] == StaffOf(Some(b[i])).value {
          assert a[i] == r[i - 1] && b[i] == p[i - 1];
        }
      } else {
        assert MapNotNull(ns, StaffOf) == r;
        assert FilterNotNull(ns) == p;
      }
    }
  }

  /** `node?.mediaRecommendation?.let { rec -> RecommendationItem(id = node.id, ...) }` */
  function RecommendationOf(node: Option<RecommendationNode>): (r: Option<RecommendationItem>)
    ensures r.Some? <==> node.Some? && node.value.mediaRecommendation.Some?
    ensures r.Some? ==>
      var rec := node.value.mediaRecommendation.value;
      && r.value.id == node.value.id
      && r.value.meanScore == rec.meanScore
      && r.value.episodes == rec.episodes
      && r.value.titleRomaji == (if rec.title.Some? then rec.title.value.romaji else None)
      && r.value.titleEnglish == (if rec.title.Some? then rec.title.value.english else None)
      && r.value.titleNative == (if rec.title.Some? then rec.title.value.native else None)
      && r.value.coverImageExtraLarge == (if rec.coverImage.Some? then rec.coverImage.value.extraLarge else None)
      && r.value.coverImageLarge == (if rec.coverImage.Some? then rec.coverImage.value.large else None)
  {
    match node
    case None => None
    case Some(n) =>
      match n.mediaRecommendation
      case None => None
      case Some(rec) =>
        Some(RecommendationItem(
          id := n.id,
          coverImageExtraLarge := if rec.coverImage.Some? then rec.coverImage.value.extraLarge else None,
          coverImageLarge := if rec.coverImage.Some? then rec.coverImage.value.large else None,
          meanScore := rec.meanScore,
          episodes := rec.episodes,
          titleEnglish := if rec.title.Some? then rec.title.value.english else None,
          titleNative := if rec.title.Some? then rec.title.value.native else None,
          titleRomaji := if rec.title.Some? then rec.title.value.romaji else None))
  }

  function RecommendationsOf(recs: Option<Recommendations>): (r: seq<RecommendationItem>)
    ensures recs.None? || recs.value.nodes.None? ==> r == []
    ensures recs.Some? && recs.value.nodes.Some? ==>
      var ns := recs.value.nodes.value;
      && (forall i :: 0 <= i < |ns| && ns[i].Some? && ns[i].value.mediaRecommendation.Some? ==>
            RecommendationOf(ns[i]).value in r)
      && |r| == |Present(ns, RecommendationOf)|
      && (forall k :: 0 <= k < |r| ==>
            var n := Present(ns, RecommendationOf)[k];
            n in ns && n.Some? && n.value.mediaRecommendation.Some? && r[k] == RecommendationOf(n).value)
  {
    match recs
    case None => []
    case Some(x) =>
      match x.nodes
      case None => []
      case Some(ns) =>
        PresentMembers(ns, RecommendationOf);
        MapNotNullEntries(ns, RecommendationOf);
        MapNotNull(ns, RecommendationOf)
  }

  /** `MediaDetailsQuery.Media.toMediaDetails()`; its field-by-field
      contract is split over the lemmas that follow. */
  function ToMediaDetails(m: Media): (r: MediaDetails)
    ensures r.id == m.id
    ensures r.startDate.Some? <==> m.startDate.Some?
    ensures r.endDate.Some? <==> m.endDate.Some?
  {
    MediaDetails(
      bannerImage := m.bannerImage,
      averageScore := m.averageScore,
      titleEnglish := if m.title.Some? then m.title.value.english else None,
      titleNative := if m.title.Some? then m.title.value.native else None,
      titleRomaji := if m.title.Some? then m.title.value.romaji else None,
      description := m.description,
      id := m.id,
      studios := StudiosOf(m.studios),
      coverImageLarge := if m.coverImage.Some? then m.coverImage.value.large else None,
      meanScore := m.meanScore,
      status := if m.status.Some? then Some(StatusName(m.status.value)) else None,
      episodes := m.episodes,
      trends := TrendsOf(m.trends),
      format := if m.format.Some? then Some(FormatName(m.format.value)) else None,
      source := if m.source.Some? then Some(SourceName(m.source.value)) else None,
      season := if m.season.Some? then Some(SeasonName(m.season.value)) else None,
      seasonYear := m.seasonYear,
      startDate := DatePartsOf(m.startDate),
      endDate := DatePartsOf(m.endDate),
      popularity := m.popularity,
      favourites := m.favourites,
      synonyms := if m.synonyms.Some? then m.synonyms.value else [],
      trailer := TrailerOf(m.trailer),
      genres := if m.genres.Some? then m.genres.value else [],
      tags := TagsOf(m.tags),
      characters := CharactersOf(m.characters),
      staff := StaffListOf(m.staff),
      recommendations := RecommendationsOf(m.recommendations))
  }

  /** Scalars are copied unchanged; null synonyms and genres become empty lists. */
  lemma DetailScalarsCopied(m: Media)
    ensures ToMediaDetails(m).averageScore == m.averageScore && ToMediaDetails(m).meanScore == m.meanScore
    ensures ToMediaDetails(m).episodes == m.episodes && ToMediaDetails(m).seasonYear == m.seasonYear
    ensures ToMediaDetails(m).popularity == m.popularity && ToMediaDetails(m).favourites == m.favourites
    ensures ToMediaDetails(m).description == m.description && ToMediaDetails(m).bannerImage == m.bannerImage
    ensures ToMediaDetails(m).synonyms == (if m.synonyms.Some? then m.synonyms.value else [])
    ensures ToMediaDetails(m).genres == (if m.genres.Some? then m.genres.value else [])
  {
  }

  /** Titles and the cover come from their optional parent records, every
      list field is built by its entry mapper from the matching raw list, and
      the two dates by the date mapper. */
  lemma DetailListsMapped(m: Media)
    ensures m.title.None? ==>
      ToMediaDetails(m).titleEnglish.None? && ToMediaDetails(m).titleNative.None? && ToMediaDetails(m).titleRomaji.None?
    ensures m.title.Some? ==>
      && ToMediaDetails(m).titleEnglish == m.title.value.english
      && ToMediaDetails(m).titleNative == m.title.value.native
      && ToMediaDetails(m).titleRomaji == m.title.value.romaji
    ensures ToMediaDetails(m).coverImageLarge == (if m.coverImage.Some? then m.coverImage.value.large else None)
    ensures ToMediaDetails(m).studios == StudiosOf(m.studios) && ToMediaDetails(m).trends == TrendsOf(m.trends)
    ensures ToMediaDetails(m).trailer == TrailerOf(m.trailer) && ToMediaDetails(m).tags == TagsOf(m.tags)
    ensures ToMediaDetails(m).characters == CharactersOf(m.characters)
    ensures ToMediaDetails(m).staff == StaffListOf(m.staff)
    ensures ToMediaDetails(m).recommendations == RecommendationsOf(m.recommendations)
    ensures ToMediaDetails(m).startDate == DatePartsOf(m.startDate)
    ensures ToMediaDetails(m).endDate == DatePartsOf(m.endDate)
  {
  }

  /** Status, format, source and season become their enum names. */
  lemma DetailEnumsNamed(m: Media)
    ensures ToMediaDetails(m).status == (if m.status.Some? then Some(StatusName(m.status.value)) else None)
    ensures ToMediaDetails(m).format == (if m.format.Some? then Some(FormatName(m.format.value)) else None)
    ensures ToMediaDetails(m).source == (if m.source.Some? then Some(SourceName(m.source.value)) else None)
    ensures ToMediaDetails(m).season == (if m.season.Some? then Some(SeasonName(m.season.value)) else None)
  {
  }

  /** The enum-valued fields of the mapped record lose nothing: each stored
      name reads back to the raw enum value. */
  lemma DetailEnumsRecoverable(m: Media)
    ensures m.format.Some? ==> FormatFromName(ToMediaDetails(m).format.value) == m.format
    ensures m.source.Some? ==> SourceFromName(ToMediaDetails(m).source.value) == m.source
    ensures m.status.Some? ==> StatusFromName(ToMediaDetails(m).status.value) == m.status
    ensures m.season.Some? ==> SeasonFromName(ToMediaDetails(m).season.value) == m.season
  {
    DetailEnumsNamed(m);
    if m.format.Some? { FormatNameRoundTrip(m.format.value); }
    if m.source.Some? { SourceNameRoundTrip(m.source.value); }
    if m.status.Some? { StatusNameRoundTrip(m.status.value); }
    if m.season.Some? { SeasonNameRoundTrip(m.season.value); }
  }
}

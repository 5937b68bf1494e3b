/** The text rules of the detail tabs (media/presentation/composable/TabContent.kt):
    what the info tab shows for a media record, the tag chip labels, and the
    layout of genres in rows of two. The studio, author, episode, format and
    source rules are also those of the older TabContent.kt. */
module InfoTab {
  import opened Common
  import opened Schema
  import opened Labels

  // ---------------------------------------------------------------------
  // Rules shared by both revisions

  /** `episodes?.toString() ?: "Unknown"`. */
  function EpisodesText(episodes: Option<Int32>): (r: string)
    ensures r == UnknownLabel <==> episodes.None?
    ensures episodes.Some? ==> r == IntToString(episodes.value)
  {
    if episodes.Some? then IntToString(episodes.value) else UnknownLabel
  }

  /** `format?.toFormatString() ?: "Unknown"`. */
  function FormatText(format: Option<MediaFormat>): (r: string)
    ensures r == UnknownLabel <==> format.None? || format == Some(UnknownFormat)
    ensures format.Some? ==> FormatOfLabel(r) == Some(format.value)
  {
    if format.Some? then FormatLabelRoundTrip(format.value); FormatLabel(format.value) else UnknownLabel
  }

  /** `source?.toSourceString() ?: "Unknown"`. */
  function SourceText(source: Option<MediaSource>): (r: string)
    ensures r == UnknownLabel <==> source.None? || source == Some(UnknownSource)
    ensures source.Some? ==> SourceOfLabel(r) == Some(source.value)
  {
    if source.Some? then SourceLabelRoundTrip(source.value); SourceLabel(source.value) else UnknownLabel
  }

  /** The studio line: shown only when the edge list has a non-null edge
      (`edges.mapNotNull { it?.isMain }` is non-empty), and then the name of
      the node of the FIRST edge, or "Unknown" when that edge or its node is null. */
  function StudioText(studios: Option<Studios>): (r: Option<string>)
    ensures r.Some? <==>
      studios.Some? && studios.value.edges.Some?
      && exists i :: 0 <= i < |studios.value.edges.value| && studios.value.edges.value[i].Some?
    ensures r.Some? && studios.value.edges.value[0].Some? && studios.value.edges.value[0].value.node.Some? ==>
      r.value == studios.value.edges.value[0].value.node.value.name
    ensures r.Some? && !(studios.value.edges.value[0].Some? && studios.value.edges.value[0].value.node.Some?) ==>
      r.value == UnknownLabel
  {
    if studios.Some? && studios.value.edges.Some? then
      var edges := studios.value.edges.value;
      var mains := MapNotNull(edges, (e: Option<StudioEdge>) => if e.Some? then Some(e.value.isMain) else None);
      if mains != [] then
        assert mains[0] in mains;
        var first := edges[0];
        Some(if first.Some? && first.value.node.Some? then first.value.node.value.name else UnknownLabel)
      else
        None
    else None
  }

  /** `it?.primaryOccupations?.contains("Mangaka") == true`. */
  predicate IsMangaka(n: Option<StaffNode>) {
    n.Some? && n.value.primaryOccupations.Some? && Some("Mangaka") in n.value.primaryOccupations.value
  }

  /** The index of the first staff node from `k` on that is a Mangaka. */
  function FirstMangakaFrom(nodes: seq<Option<StaffNode>>, k: nat): (r: Option<nat>)
    requires k <= |nodes|
    ensures r.Some? ==>
      && k <= r.value < |nodes| && IsMangaka(nodes[r.value])
      && forall j :: k <= j < r.value ==> !IsMangaka(nodes[j])
    ensures r.None? ==> forall j :: k <= j < |nodes| ==> !IsMangaka(nodes[j])
    decreases |nodes| - k
  {
    if k == |nodes| then None
    else if IsMangaka(nodes[k]) then Some(k)
    else FirstMangakaFrom(nodes, k + 1)
  }

  /** The author line: the full name of the first staff node credited as
      "Mangaka" (its full name, or "Unknown" when that node has none), and
      "Unknown" when no node is. */
  function AuthorName(staff: Option<Staff>): (r: string)
    ensures (staff.None? || staff.value.nodes.None?) ==> r == UnknownLabel
    ensures staff.Some? && staff.value.nodes.Some? ==>
      var nodes := staff.value.nodes.value;
      && ((forall j :: 0 <= j < |nodes| ==> !IsMangaka(nodes[j])) ==> r == UnknownLabel)
      && (r != UnknownLabel ==>
            exists i :: 0 <= i < |nodes| && IsMangaka(nodes[i])
                        && (forall j :: 0 <= j < i ==> !IsMangaka(nodes[j]))
                        && nodes[i].value.name.Some? && nodes[i].value.name.value.full == Some(r))
      && (forall i :: 0 <= i < |nodes| && IsMangaka(nodes[i]) && (forall j :: 0 <= j < i ==> !IsMangaka(nodes[j])) ==>
            var n := nodes[i].value;
            r == (if n.name.Some? && n.name.value.full.Some? then n.name.value.full.value else UnknownLabel))
  {
    if staff.Some? && staff.value.nodes.Some? then
      var nodes := staff.value.nodes.value;
      match FirstMangakaFrom(nodes, 0)
      case None => UnknownLabel
      case Some(i) =>
        var n := nodes[i].value;
        if n.name.Some? && n.name.value.full.Some? then n.name.value.full.value else UnknownLabel
    else UnknownLabel
  }

  // ---------------------------------------------------------------------
  // Season and dates

  /** No space character occurs in `s`. */
  predicate NoSpace(s: string) {
    forall i :: 0 <= i < |s| ==> s[i] != ' '
  }

  /** The index of the first space in `s`, or `|s|` when there is none. */
  function FirstSpace(s: string): (r: nat)
    ensures r <= |s|
    decreases |s|
  {
    if s == [] then 0 else if s[0] == ' ' then 0 else 1 + FirstSpace(s[1..])
  }

  /** The first space after a space-free word is the one that follows it. */
  lemma {:induction false} FirstSpaceAfterWord(w: string, rest: string)
    requires NoSpace(w)
    ensures FirstSpace(w + " " + rest) == |w|
    decreases |w|
  {
    if w == [] {
      assert w + " " + rest == [' '] + rest;
    } else {
      assert (w + " " + rest)[1..] == w[1..] + " " + rest;
      FirstSpaceAfterWord(w[1..], rest);
    }
  }

  /** A space-free word followed by a space splits off at that space. */
  lemma SplitAfterWord(w1: string, a: string, w2: string, b: string)
    requires NoSpace(w1) && NoSpace(w2) && w1 + " " + a == w2 + " " + b
    ensures w1 == w2 && a == b
  {
    var x := w1 + " " + a;
    assert forall k :: 0 <= k < |w1| ==> x[k] == w1[k];
    assert forall k :: 0 <= k < |w2| ==> x[k] == w2[k];
    assert x[|w1|] == ' ' && x[|w2|] == ' ';
    assert |w1| == |w2|;
    assert w1 == x[..|w1|] == w2;
    assert a == x[|w1| + 1..] == b;
  }

  /** A space followed by a space-free word at the end splits off at that space. */
  lemma SplitBeforeWord(a: string, w1: string, b: string, w2: string)
    requires NoSpace(w1) && NoSpace(w2) && a + " " + w1 == b + " " + w2
    ensures a == b && w1 == w2
  {
    var x := a + " " + w1;
    assert forall k :: |a| < k < |x| ==> x[k] == w1[k - |a| - 1];
    assert forall k :: |b| < k < |x| ==> x[k] == w2[k - |b| - 1];
    assert x[|a|] == ' ' && x[|b|] == ' ';
    assert |a| == |b|;
    assert a == x[..|a|] == b;
    assert w1 == x[|a| + 1..] == w2;
  }

  /** Decimal renderings contain no spaces. */
  lemma IntToStringNoSpace(n: int)
    ensures NoSpace(IntToString(n))
  {
    if n < 0 {
      assert forall i :: 1 <= i < |IntToString(n)| ==> IntToString(n)[i] == NatToString(-n)[i - 1];
    }
  }

  /** Nor do renderings of an optional number. */
  lemma NullableToStringNoSpace(o: Option<int>)
    ensures NoSpace(NullableToString(o))
  {
    if o.Some? { IntToStringNoSpace(o.value); }
  }

  /** Two optional numbers with the same rendering are equal. */
  lemma NullableToStringInjective(a: Option<int>, b: Option<int>)
    requires NullableToString(a) == NullableToString(b)
    ensures a == b
  {
    if a.Some? && b.Some? { IntToStringInjective(a.value, b.value); }
  }

  /** The season constant names contain no spaces. */
  lemma SeasonNameNoSpace(s: MediaSeason)
    ensures NoSpace(SeasonName(s))
  {
  }

  /** The season line: "SEASON year" when both are known, "Unknown" otherwise. */
  function SeasonText(season: Option<MediaSeason>, year: Option<Int32>): (r: string)
    ensures r == UnknownLabel <==> season.None? || year.None?
  {
    if season.Some? && year.Some? then
      var r := SeasonName(season.value) + " " + IntToString(year.value);
      assert r[|SeasonName(season.value)|] == ' ';
      assert ' ' !in UnknownLabel;
      r
    else UnknownLabel
  }

  /** A season line that is not "Unknown" determines the season and the year. */
  lemma SeasonTextInjective(s1: MediaSeason, y1: Int32, s2: MediaSeason, y2: Int32)
    requires SeasonText(Some(s1), Some(y1)) == SeasonText(Some(s2), Some(y2))
    ensures s1 == s2 && y1 == y2
  {
    var n1, n2 := SeasonName(s1), SeasonName(s2);
    var r := SeasonText(Some(s1), Some(y1));
    SeasonNameNoSpace(s1);
    SeasonNameNoSpace(s2);
    FirstSpaceAfterWord(n1, IntToString(y1));
    FirstSpaceAfterWord(n2, IntToString(y2));
    assert |n1| == |n2|;
    assert n1 == r[..|n1|] == n2;
    SeasonNameRoundTrip(s1);
    SeasonNameRoundTrip(s2);
    assert IntToString(y1) == r[|n1| + 1..] == IntToString(y2);
    IntToStringInjective(y1, y2);
  }

  /** Decimal renderings end with a digit. */
  lemma IntToStringEndsInDigit(n: int)
    ensures IsDigit(IntToString(n)[|IntToString(n)| - 1])
  {
    if n < 0 {
      assert IntToString(n)[|IntToString(n)| - 1] == NatToString(-n)[|NatToString(-n)| - 1];
    }
  }

  const NotYetAired := "Not yet aired"
  const Ongoing := "Ongoing"

  /** "day Month year", the day rendered with `toString()` (so "null" when absent). */
  function DateLine(day: Option<Int32>, month: Int32, year: Int32): (r: string)
    ensures |r| > 0 && IsDigit(r[|r| - 1])
  {
    IntToStringEndsInDigit(year);
    NullableToString(day) + " " + MonthLabel(month) + " " + IntToString(year)
  }

  lemma SpaceJoinAssociative(p: string, q: string, w: string)
    ensures p + " " + q + " " + w == p + " " + (q + " " + w)
  {
  }

  /** A date line splits into the rendered day and the rest of the line. */
  lemma DateLineDay(d1: Option<Int32>, m1: Int32, y1: Int32, d2: Option<Int32>, m2: Int32, y2: Int32)
    requires DateLine(d1, m1, y1) == DateLine(d2, m2, y2)
    ensures d1 == d2
    ensures MonthLabel(m1) + " " + IntToString(y1) == MonthLabel(m2) + " " + IntToString(y2)
  {
    var n1, n2 := NullableToString(d1), NullableToString(d2);
    var l1, l2 := MonthLabel(m1), MonthLabel(m2);
    var i1, i2 := IntToString(y1), IntToString(y2);
    var t1, t2 := l1 + " " + i1, l2 + " " + i2;
    assert DateLine(d1, m1, y1) == n1 + " " + l1 + " " + i1;
    assert DateLine(d2, m2, y2) == n2 + " " + l2 + " " + i2;
    SpaceJoinAssociative(n1, l1, i1);
    SpaceJoinAssociative(n2, l2, i2);
    NullableToStringNoSpace(d1);
    NullableToStringNoSpace(d2);
    SplitAfterWord(n1, t1, n2, t2);
    NullableToStringInjective(d1, d2);
  }

  /** A date line determines the day, the month label and the year, and so the
      month itself when it is a real one. */
  lemma DateLineInjective(d1: Option<Int32>, m1: Int32, y1: Int32, d2: Option<Int32>, m2: Int32, y2: Int32)
    requires DateLine(d1, m1, y1) == DateLine(d2, m2, y2)
    ensures d1 == d2 && MonthLabel(m1) == MonthLabel(m2) && y1 == y2
    ensures 1 <= m1 <= 12 && 1 <= m2 <= 12 ==> m1 == m2
  {
    DateLineDay(d1, m1, y1, d2, m2, y2);
    IntToStringNoSpace(y1);
    IntToStringNoSpace(y2);
    SplitBeforeWord(MonthLabel(m1), IntToString(y1), MonthLabel(m2), IntToString(y2));
    IntToStringInjective(y1, y2);
    if 1 <= m1 <= 12 && 1 <= m2 <= 12 { MonthLabelInjective(m1, m2); }
  }

  /** A date line, formatted when the date, its month and its year are present,
      `fallback` otherwise. */
  function DateText(date: Option<FuzzyDate>, fallback: string): (r: string)
    ensures date.Some? && date.value.month.Some? && date.value.year.Some? ==>
      r == DateLine(date.value.day, date.value.month.value, date.value.year.value)
  {
    if date.Some? && date.value.month.Some? && date.value.year.Some? then
      DateLine(date.value.day, date.value.month.value, date.value.year.value)
    else fallback
  }

  /** The start date line: formatted when the date, month and year are all
      present — the day may be missing — and "Not yet aired" otherwise. */
  function StartDateText(date: Option<FuzzyDate>): (r: string)
    ensures r == NotYetAired <==> !(date.Some? && date.value.month.Some? && date.value.year.Some?)
    ensures date.Some? && date.value.month.Some? && date.value.year.Some? ==>
      r == DateLine(date.value.day, date.value.month.value, date.value.year.value)
  {
    DateText(date, NotYetAired)
  }

  /** The end date line: as the start date, with "Ongoing" as the fallback. */
  function EndDateText(date: Option<FuzzyDate>): (r: string)
    ensures r == Ongoing <==> !(date.Some? && date.value.month.Some? && date.value.year.Some?)
    ensures date.Some? && date.value.month.Some? && date.value.year.Some? ==>
      r == DateLine(date.value.day, date.value.month.value, date.value.year.value)
  {
    DateText(date, Ongoing)
  }

  /** Two complete dates shown with the same line have the same day and year,
      and the same month when it is a real one. */
  lemma DateTextDetermines(a: FuzzyDate, b: FuzzyDate, fallback: string)
    requires a.month.Some? && a.year.Some? && b.month.Some? && b.year.Some?
    requires DateText(Some(a), fallback) == DateText(Some(b), fallback)
    ensures a.day == b.day && a.year == b.year
    ensures 1 <= a.month.value <= 12 && 1 <= b.month.value <= 12 ==> a.month == b.month
  {
    DateLineInjective(a.day, a.month.value, a.year.value, b.day, b.month.value, b.year.value);
  }

  // ---------------------------------------------------------------------
  // Tags and genres

  /** The chip label of a tag: "name: rank%", a missing tag or rank shown as "". */
  function TagLabel(t: Option<Tag>): (r: string)
    ensures t.Some? ==> |t.value.name| < |r| && r[..|t.value.name|] == t.value.name
    ensures |r| >= 3 && r[|r| - 1] == '%'
  {
    var name := if t.Some? then t.value.name else "";
    var rank := if t.Some? && t.value.rank.Some? then IntToString(t.value.rank.value) else "";
    name + ": " + rank + "%"
  }

  /** The chips of a tag list: one per entry, none for a missing list. */
  function TagLabels(tags: Option<seq<Option<Tag>>>): (r: seq<string>)
    ensures tags.None? ==> r == []
    ensures tags.Some? ==> |r| == |tags.value| && forall i :: 0 <= i < |r| ==> r[i] == TagLabel(tags.value[i])
  {
    if tags.None? then [] else seq(|tags.value|, i requires 0 <= i < |tags.value| => TagLabel(tags.value[i]))
  }

  /** Two tags of the same name with the same label have the same rank. */
  lemma TagLabelDeterminesRank(a: Tag, b: Tag)
    requires a.name == b.name && TagLabel(Some(a)) == TagLabel(Some(b))
    ensures a.rank == b.rank
  {
    var k := |a.name| + 2;
    var ra := if a.rank.Some? then IntToString(a.rank.value) else "";
    var rb := if b.rank.Some? then IntToString(b.rank.value) else "";
    assert TagLabel(Some(a)) == a.name + ": " + ra + "%";
    assert TagLabel(Some(b)) == b.name + ": " + rb + "%";
    assert ra == TagLabel(Some(a))[k..|TagLabel(Some(a))| - 1];
    assert rb == TagLabel(Some(b))[k..|TagLabel(Some(b))| - 1];
    if a.rank.Some? && b.rank.Some? {
      IntToStringInjective(a.rank.value, b.rank.value);
    }
  }

  /** Kotlin `chunked(2)`: consecutive pairs, the last one single when the count is odd. */
  function Chunked2<T>(s: seq<T>): (r: seq<seq<T>>)
    ensures |r| == (|s| + 1) / 2
    ensures forall i :: 0 <= i < |r| ==> 1 <= |r[i]| <= 2
    ensures forall i :: 0 <= i < |r| - 1 ==> |r[i]| == 2
    decreases |s|
  {
    if |s| <= 2 then (if s == [] then [] else [s])
    else [s[..2]] + Chunked2(s[2..])
  }

  /** The concatenation of a list of rows. */
  function Flatten<T>(rows: seq<seq<T>>): seq<T>
    decreases |rows|
  {
    if rows == [] then [] else rows[0] + Flatten(rows[1..])
  }

  /** The rows of `chunked(2)` hold the entries in their order, none lost or repeated. */
  lemma {:induction false} Chunked2Flatten<T>(s: seq<T>)
    ensures Flatten(Chunked2(s)) == s
    decreases |s|
  {
    if |s| > 2 {
      Chunked2Flatten(s[2..]);
      assert s[..2] + s[2..] == s;
    } else if s != [] {
      assert Flatten([s]) == s + Flatten([s][1..]);
      assert [s][1..] == [];
    }
  }

  /** The genre names as shown, a missing name as "". */
  function GenreNames(genres: seq<Option<string>>): (r: seq<string>)
    ensures |r| == |genres|
    ensures forall i :: 0 <= i < |r| ==> r[i] == genres[i].GetOr("")
  {
    seq(|genres|, i requires 0 <= i < |genres| => genres[i].GetOr(""))
  }

  /** The genre rows: none when the list is missing or empty, otherwise the
      genres two per row, in their order, each shown with a missing name as "".
      Replacing a missing name by "" in each row of `chunked(2)`, as the screen
      does, gives the same rows as replacing it before chunking, as here. */
  function GenreRows(genres: Option<seq<Option<string>>>): (r: seq<seq<string>>)
    ensures genres.None? || genres.value == [] ==> r == []
    ensures genres.Some? ==>
      && |r| == (|genres.value| + 1) / 2
      && (forall i :: 0 <= i < |r| - 1 ==> |r[i]| == 2)
      && (|r| > 0 ==> |r[|r| - 1]| == 2 - |genres.value| % 2)
      && Flatten(r) == GenreNames(genres.value)
  {
    if genres.None? || genres.value == [] then []
    else
      var names := GenreNames(genres.value);
      Chunked2LastRow(names);
      Chunked2Flatten(names);
      Chunked2(names)
  }

  /** Only the last row of `chunked(2)` can be single, and it is exactly when
      the count is odd. */
  lemma {:induction false} Chunked2LastRow<T>(s: seq<T>)
    requires s != []
    ensures |Chunked2(s)[|Chunked2(s)| - 1]| == 2 - |s| % 2
    decreases |s|
  {
    if |s| > 2 {
      Chunked2LastRow(s[2..]);
      assert Chunked2(s)[|Chunked2(s)| - 1] == Chunked2(s[2..])[|Chunked2(s[2..])| - 1];
    }
  }
}

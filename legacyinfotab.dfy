/** The info tab of the older detail screen (TabContent.kt at the package
    root). It shows its rows only when the response carries a Media record,
    and it formats the season and the dates more loosely than its successor:
    a missing part is rendered as "" or, through `toString()`, as "null",
    where the successor shows a fixed fallback. */
module LegacyInfoTab {
  import opened Common
  import opened Schema
  import opened Labels
  import opened InfoTab

  /** The season line: `"${season ?: ""} ${seasonYear.toString()}"`, always two
      parts around a space. */
  function LegacySeasonText(season: Option<MediaSeason>, year: Option<Int32>): (r: string)
    ensures season.None? ==> r == " " + NullableToString(year)
    ensures season.Some? ==> r == SeasonName(season.value) + " " + NullableToString(year)
  {
    (if season.Some? then SeasonName(season.value) else "") + " " + NullableToString(year)
  }

  /** Where both parts are known the two revisions print the same season line;
      otherwise the older one prints a text the newer one never does. */
  lemma SeasonTextsAgree(season: Option<MediaSeason>, year: Option<Int32>)
    ensures season.Some? && year.Some? ==> LegacySeasonText(season, year) == SeasonText(season, year)
    ensures !(season.Some? && year.Some?) ==> LegacySeasonText(season, year) != SeasonText(season, year)
  {
    if !(season.Some? && year.Some?) {
      var r := LegacySeasonText(season, year);
      if season.Some? {
        assert r[|SeasonName(season.value)|] == ' ';
      } else {
        assert r[0] == ' ';
      }
      assert ' ' !in UnknownLabel;
    }
  }

  /** A date line: "" when the date is missing, otherwise
      "day month year" with the day and year through `toString()` and a
      missing month as "". Start and end dates use the same rule. */
  function LegacyDateText(date: Option<FuzzyDate>): (r: string)
    ensures r == "" <==> date.None?
  {
    if date.None? then ""
    else
      var d := date.value;
      NullableToString(d.day) + " " + LegacyMonthText(d.month) + " " + NullableToString(d.year)
  }

  /** The month part of an older date line: its label, or "" when missing. */
  function LegacyMonthText(month: Option<Int32>): (r: string)
    ensures month.None? ==> r == ""
    ensures month.Some? ==> r == MonthLabel(month.value)
  {
    if month.Some? then MonthLabel(month.value) else ""
  }

  /** An older date line determines the day, the year and the month part, and
      so the month itself when both months are real ones. */
  lemma LegacyDateTextDetermines(a: FuzzyDate, b: FuzzyDate)
    requires LegacyDateText(Some(a)) == LegacyDateText(Some(b))
    ensures a.day == b.day && a.year == b.year
    ensures LegacyMonthText(a.month) == LegacyMonthText(b.month)
    ensures a.month.Some? && b.month.Some? && 1 <= a.month.value <= 12 && 1 <= b.month.value <= 12 ==>
      a.month == b.month
  {
    var n1, n2 := NullableToString(a.day), NullableToString(b.day);
    var l1, l2 := LegacyMonthText(a.month), LegacyMonthText(b.month);
    var i1, i2 := NullableToString(a.year), NullableToString(b.year);
    assert LegacyDateText(Some(a)) == n1 + " " + l1 + " " + i1;
    assert LegacyDateText(Some(b)) == n2 + " " + l2 + " " + i2;
    SpaceJoinAssociative(n1, l1, i1);
    SpaceJoinAssociative(n2, l2, i2);
    NullableToStringNoSpace(a.day);
    NullableToStringNoSpace(b.day);
    SplitAfterWord(n1, l1 + " " + i1, n2, l2 + " " + i2);
    NullableToStringInjective(a.day, b.day);
    NullableToStringNoSpace(a.year);
    NullableToStringNoSpace(b.year);
    SplitBeforeWord(l1, i1, l2, i2);
    NullableToStringInjective(a.year, b.year);
    if a.month.Some? && b.month.Some? && 1 <= a.month.value <= 12 && 1 <= b.month.value <= 12 {
      MonthLabelInjective(a.month.value, b.month.value);
    }
  }

  /** With month and year known, both revisions print the same date line. */
  lemma DateTextsAgree(date: Option<FuzzyDate>)
    requires date.Some? && date.value.month.Some? && date.value.year.Some?
    ensures LegacyDateText(date) == StartDateText(date) == EndDateText(date)
  {
  }

  /** One row of the info tab: its heading and the text beside it (absent
      when the row shows no text, as the studio row may). */
  datatype InfoRow = InfoRow(heading: string, text: Option<string>)

  /** `synonyms?.joinToString(separator = ", ") ?: ""`; a null entry renders as "null". */
  function JoinSynonyms(synonyms: Option<seq<Option<string>>>): (r: string)
    ensures synonyms.None? ==> r == ""
    ensures synonyms.Some? ==> r == JoinComma(synonyms.value)
  {
    if synonyms.None? then "" else JoinComma(synonyms.value)
  }

  /** Kotlin `joinToString(", ")` on a list of nullable strings. */
  function JoinComma(s: seq<Option<string>>): (r: string)
    ensures s == [] ==> r == ""
    ensures |s| == 1 ==> r == NullableText(s[0])
    decreases |s|
  {
    if s == [] then "" else if |s| == 1 then NullableText(s[0])
    else NullableText(s[0]) + ", " + JoinComma(s[1..])
  }

  /** Joining a concatenation joins the two parts with one separator between. */
  lemma {:induction false} JoinCommaAppend(a: seq<Option<string>>, b: seq<Option<string>>)
    requires a != [] && b != []
    ensures JoinComma(a + b) == JoinComma(a) + ", " + JoinComma(b)
    decreases |a|
  {
    var ab := a + b;
    var head := NullableText(a[0]);
    assert ab[0] == a[0] && ab[1..] == a[1..] + b;
    assert JoinComma(ab) == head + ", " + JoinComma(ab[1..]);
    if |a| == 1 {
      assert ab[1..] == b;
      assert JoinComma(a) == head;
    } else {
      JoinCommaAppend(a[1..], b);
      var x, y := JoinComma(a[1..]), JoinComma(b);
      assert JoinComma(a) == head + ", " + x;
      assert JoinComma(ab) == head + ", " + (x + ", " + y);
    }
  }

  /** The headings of the modelled rows, in screen order. */
  const InfoHeadings: seq<string> := [
    "Total episodes: ", "Format: ", "Source: ", "Studio: ", "Author: ", "Season: ",
    "Start date: ", "End date: ", "Popularity: ", "Favourites: ", "Name romaji: ",
    "Name : ", "Synonyms : "]

  /** The rows of the info tab with a modelled text, in screen order; the mean
      score, synopsis and trailer rows are not modelled. Only the studio row
      can be without a text. */
  function InfoRows(data: MediaDetailsData): (rows: seq<InfoRow>)
    ensures rows == [] <==> data.media.None?
    ensures data.media.Some? ==> |rows| == |InfoHeadings|
    ensures data.media.Some? ==> forall k :: 0 <= k < |rows| ==> rows[k].heading == InfoHeadings[k]
    ensures data.media.Some? ==> forall k :: 0 <= k < |rows| && k != 3 ==> rows[k].text.Some?
  {
    match data.media
    case None => []
    case Some(m) =>
      seq(|InfoHeadings|, k requires 0 <= k < |InfoHeadings| => InfoRow(InfoHeadings[k], RowText(m, k)))
  }

  /** The text beside the heading of row `k`. */
  function RowText(m: Media, k: nat): (t: Option<string>)
    requires k < |InfoHeadings|
    ensures k != 3 ==> t.Some?
  {
    if k == 0 then Some(EpisodesText(m.episodes))
    else if k == 1 then Some(FormatText(m.format))
    else if k == 2 then Some(SourceText(m.source))
    else if k == 3 then StudioText(m.studios)
    else if k == 4 then Some(AuthorName(m.staff))
    else if k == 5 then Some(LegacySeasonText(m.season, m.seasonYear))
    else if k == 6 then Some(LegacyDateText(m.startDate))
    else if k == 7 then Some(LegacyDateText(m.endDate))
    else if k == 8 then Some(NullableToString(m.popularity))
    else if k == 9 then Some(NullableToString(m.favourites))
    else if k == 10 then Some(if m.title.Some? then m.title.value.romaji.GetOr("") else "")
    else if k == 11 then Some(if m.title.Some? then m.title.value.native.GetOr("") else "")
    else Some(JoinSynonyms(m.synonyms))
  }

  /** The first six rows show the text their rule gives for the production
      fields of the record. */
  lemma InfoRowTextsProduction(data: MediaDetailsData)
    requires data.media.Some?
    ensures var m, rows := data.media.value, InfoRows(data);
      && rows[0].text == Some(EpisodesText(m.episodes))
      && rows[1].text == Some(FormatText(m.format))
      && rows[2].text == Some(SourceText(m.source))
      && rows[3].text == StudioText(m.studios)
      && rows[4].text == Some(AuthorName(m.staff))
      && rows[5].text == Some(LegacySeasonText(m.season, m.seasonYear))
  {
    var m, rows := data.media.value, InfoRows(data);
    assert forall k :: 0 <= k < 6 ==> rows[k].text == RowText(m, k);
  }

  /** The two date rows show the older date lines of the start and end dates. */
  lemma InfoRowTextsDates(data: MediaDetailsData)
    requires data.media.Some?
    ensures var m, rows := data.media.value, InfoRows(data);
      && rows[6].text == Some(LegacyDateText(m.startDate))
      && rows[7].text == Some(LegacyDateText(m.endDate))
  {
    var m, rows := data.media.value, InfoRows(data);
    assert rows[6].text == RowText(m, 6);
    assert rows[7].text == RowText(m, 7);
  }

  /** The next two rows show the popularity and favourites counts. */
  lemma InfoRowTextsCounts(data: MediaDetailsData)
    requires data.media.Some?
    ensures var m, rows := data.media.value, InfoRows(data);
      && rows[8].text == Some(NullableToString(m.popularity))
      && rows[9].text == Some(NullableToString(m.favourites))
  {
    var m, rows := data.media.value, InfoRows(data);
    assert forall k :: 8 <= k < 10 ==> rows[k].text == RowText(m, k);
  }

  /** The last three rows show the names and the synonyms. */
  lemma InfoRowTextsNames(data: MediaDetailsData)
    requires data.media.Some?
    ensures var m, rows := data.media.value, InfoRows(data);
      && rows[10].text == Some(if m.title.Some? then m.title.value.romaji.GetOr("") else "")
      && rows[11].text == Some(if m.title.Some? then m.title.value.native.GetOr("") else "")
      && rows[12].text == Some(JoinSynonyms(m.synonyms))
  {
    var m, rows := data.media.value, InfoRows(data);
    assert forall k :: 10 <= k < 13 ==> rows[k].text == RowText(m, k);
  }
}

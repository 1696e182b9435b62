/**
 * The news page's `formatDate`: the age of an article in whole minutes, hours or days (each a
 * floor division of the millisecond difference), chosen by the first bucket that applies,
 * and a calendar date from seven days on. Also the page's `getLocalizedText` field map.
 */
module NewsPage {
  import opened Common
  import opened Text
  import opened Json
  import opened LanguageContext

  const MS_PER_MINUTE := 60000
  const MS_PER_HOUR := 3600000
  const MS_PER_DAY := 86400000

  /**
   * What `formatDate` shows: a relative age, a calendar date for the publication time (its
   * locale text is not modelled), or the text of an unparsable date.
   */
  datatype Age = Minutes(n: int) | Hours(n: int) | Days(n: int) | Calendar(at: int) | InvalidDate

  /** The text of a relative age. */
  function Describe(age: Age): string
    requires !age.Calendar?
  {
    match age
    case Minutes(n) => IntToString(n) + " minutes ago"
    case Hours(n) => IntToString(n) + " hours ago"
    case Days(n) => IntToString(n) + " days ago"
    case InvalidDate => "Invalid Date"
  }

  /**
   * `formatDate(dateString)` with `published` the parsed time in milliseconds (`None` when
   * `new Date` gives an invalid date, whose NaN comparisons all fail) and `now` the clock.
   * Dafny's `/` by a positive divisor is `Math.floor` of the quotient.
   */
  function FormatDate(published: Option<int>, now: int): Age {
    if published.None? then InvalidDate
    else
      var diffMs := now - published.value;
      var diffMins := diffMs / MS_PER_MINUTE;
      var diffHours := diffMs / MS_PER_HOUR;
      var diffDays := diffMs / MS_PER_DAY;
      if diffMins < 60 then Minutes(diffMins)
      else if diffHours < 24 then Hours(diffHours)
      else if diffDays < 7 then Days(diffDays)
      else Calendar(published.value)
  }

  /**
   * The buckets by the raw difference: under an hour (future dates included) in minutes, under
   * a day in hours, under a week in days, else a calendar date; each count is the floor of
   * the difference over its unit.
   */
  lemma FormatDateBuckets(published: int, now: int)
    ensures var age := FormatDate(Some(published), now);
            var diff := now - published;
            && (age.Minutes? <==> diff < 3600000)
            && (age.Hours? <==> 3600000 <= diff < 86400000)
            && (age.Days? <==> 86400000 <= diff < 604800000)
            && (age.Calendar? <==> diff >= 604800000)
            && (age.Calendar? ==> age.at == published)
            && (age.Minutes? ==> age.n * 60000 <= diff < (age.n + 1) * 60000)
            && (age.Hours? ==> age.n * 3600000 <= diff < (age.n + 1) * 3600000 && 1 <= age.n < 24)
            && (age.Days? ==> age.n * 86400000 <= diff < (age.n + 1) * 86400000 && 1 <= age.n < 7)
  {
  }

  /** Exactly one hour ago is one hour, and a publication one minute ahead is minus one minute. */
  lemma FormatDateEdges(published: int)
    ensures FormatDate(Some(published), published + 3600000) == Hours(1)
    ensures FormatDate(Some(published), published - 60000) == Minutes(-1)
  {
  }

  /** Those read "1 hours ago" and "-1 minutes ago". */
  lemma DescribeEdges()
    ensures Describe(Hours(1)) == "1" + " hours ago"
    ensures Describe(Minutes(-1)) == "-1" + " minutes ago"
  {
    assert NatToString(1) == "1";
    assert IntToString(-1) == "-" + "1";
  }

  /** The fields the news page's `getLocalizedText` maps to translated fields. */
  const NEWS_FIELDS: set<string> := {"title", "description", "tip", "crop"}

  /**
   * A mapped field reads its translated variant when that is truthy, else the base field; a
   * field outside the map reads the item's "undefined" member first.
   */
  lemma NewsTextLocalized(item: map<string, Json>, l: Language, field: string)
    ensures field in NEWS_FIELDS ==>
              var own := Lookup(item, field + Suffix(l));
              LocalizedText(NEWS_FIELDS, item, l, field) == if Truthy(own) then own else Lookup(item, field)
    ensures field !in NEWS_FIELDS && "undefined" !in item ==>
              LocalizedText(NEWS_FIELDS, item, l, field) == Lookup(item, field)
  {
    if field in NEWS_FIELDS {
      LocalizedTextChoice(NEWS_FIELDS, item, l, field);
    }
  }
}

/**
 * The record normaliser and the metric calculator: one API video item
 * becomes one flat record, and the table of records gets its category
 * names, engagement and comment rates and hours since publication.
 */
module Records {
  import opened Wrappers
  import opened Json

  const DescriptionLimit: nat := 200
  const Ellipsis: string := "..."
  const WatchUrl: string := "https://www.youtube.com/watch?v="
  const Unknown: string := "Unknown"

  /** The region codes the dashboard offers, with their display names. */
  const Regions: map<string, string> := map[
    "US" := "United States", "CA" := "Canada", "GB" := "United Kingdom",
    "DE" := "Germany", "FR" := "France", "IN" := "India", "JP" := "Japan",
    "KR" := "South Korea", "MX" := "Mexico", "RU" := "Russia", "BR" := "Brazil",
    "AU" := "Australia", "IT" := "Italy", "ES" := "Spain", "NL" := "Netherlands"
  ]

  /** The fields built per item, before the table-wide columns are added. */
  datatype VideoFields = VideoFields(
    videoId: string,
    title: string,
    channelTitle: string,
    categoryId: string,
    publishedAt: string,
    views: int,
    likes: int,
    comments: int,
    duration: string,
    region: string,
    regionName: string,
    thumbnail: string,
    description: string,
    videoUrl: string)

  /** A row of the returned table. */
  datatype VideoRecord = VideoRecord(
    fields: VideoFields,
    fetchTime: int,
    categoryName: string,
    engagementRate: Rate,
    commentRate: Rate,
    hoursSincePublished: real)

  /** A float64 ratio after `fillna(0)`: NaN (0/0) is gone, infinities stay. */
  datatype Rate = Finite(value: real) | PosInf | NegInf

  /**
   * The clock and the timestamp parser, which the model does not compute:
   * the fetch time stamp, whether `pd.to_datetime` accepts the publishedAt
   * column (as a whole: the format it infers applies to every element), the
   * live hours since a publishedAt (None for NaN), and whether the hours
   * calculation raises as a whole.
   */
  datatype Clock = Clock(
    fetchTime: int,
    parses: seq<string> -> bool,
    hoursSince: string -> Option<real>,
    hoursRaise: bool)

  /** Descriptions longer than the limit keep its first 200 characters and gain "...". */
  function Truncate(s: string): (r: string)
    ensures |s| <= DescriptionLimit ==> r == s
    ensures |s| > DescriptionLimit ==> |r| == DescriptionLimit + |Ellipsis|
    ensures |s| > DescriptionLimit ==> r[..DescriptionLimit] == s[..DescriptionLimit]
    ensures |s| > DescriptionLimit ==> r[DescriptionLimit..] == Ellipsis
  {
    if |s| > DescriptionLimit then s[..DescriptionLimit] + Ellipsis else s
  }

  /** Normalising an already normalised description changes nothing. */
  lemma TruncateIdempotent(s: string)
    ensures Truncate(Truncate(s)) == Truncate(s)
  {
  }

  /** `regions.get(region, region)` */
  function RegionName(region: string): string {
    if region in Regions then Regions[region] else region
  }

  /** `int(stats.get(key, 0))` */
  function Count(stats: Json, key: string): Option<int> {
    var v :- Get(stats, key, JInt(0));
    ToInt(v)
  }

  /** The count a record holds for `key` when `stats` are the item's statistics. */
  predicate Counted(stats: map<string, Json>, key: string, n: int) {
    if key in stats then ToInt(stats[key]) == Some(n) else n == 0
  }

  /** One item of a videos response as a record; None when building it raises. */
  function NormaliseItem(item: Json, region: string): Option<VideoFields> {
    var videoId :- Text(item, "id");
    var snippet :- Index(item, "snippet");
    var title :- Text(snippet, "title");
    var channelTitle :- Text(snippet, "channelTitle");
    var categoryId :- Text(snippet, "categoryId");
    var publishedAt :- Text(snippet, "publishedAt");
    var stats :- Index(item, "statistics");
    var views :- Count(stats, "viewCount");
    var likes :- Count(stats, "likeCount");
    var comments :- Count(stats, "commentCount");
    var details :- Index(item, "contentDetails");
    var duration :- Text(details, "duration");
    var thumbnails :- Index(snippet, "thumbnails");
    var medium :- Index(thumbnails, "medium");
    var thumbnail :- Text(medium, "url");
    var description :- Text(snippet, "description");
    Some(VideoFields(videoId, title, channelTitle, categoryId, publishedAt,
                     views, likes, comments, duration, region, RegionName(region),
                     thumbnail, Truncate(description), WatchUrl + videoId))
  }

  /** The string fields every item must carry, the statistics it must have as an object. */
  predicate WellFormedItem(item: Json) {
    && Text(item, "id").Some?
    && Index(item, "snippet").Some?
    && var snippet := item.fields["snippet"];
    && Text(snippet, "title").Some?
    && Text(snippet, "channelTitle").Some?
    && Text(snippet, "categoryId").Some?
    && Text(snippet, "publishedAt").Some?
    && Text(snippet, "description").Some?
    && Index(snippet, "thumbnails").Some?
    && Index(snippet.fields["thumbnails"], "medium").Some?
    && Text(snippet.fields["thumbnails"].fields["medium"], "url").Some?
    && Index(item, "contentDetails").Some?
    && Text(item.fields["contentDetails"], "duration").Some?
    && Index(item, "statistics").Some?
    && var stats := item.fields["statistics"];
    && Count(stats, "viewCount").Some?
    && Count(stats, "likeCount").Some?
    && Count(stats, "commentCount").Some?
  }

  /** An item is recorded exactly when it is well formed; otherwise building it raises. */
  lemma NormaliseItemDefined(item: Json, region: string)
    ensures NormaliseItem(item, region).Some? <==> WellFormedItem(item)
  {
  }

  /** Each record field is the item's field at its documented path, as the source derives it. */
  lemma NormaliseItemFields(item: Json, region: string)
    requires NormaliseItem(item, region).Some?
    ensures item.JObj? && "snippet" in item.fields
    ensures var r := NormaliseItem(item, region).value;
      var snippet := item.fields["snippet"];
      && Some(r.videoId) == Text(item, "id")
      && r.videoUrl == WatchUrl + r.videoId
      && Some(r.title) == Text(snippet, "title")
      && Some(r.channelTitle) == Text(snippet, "channelTitle")
      && Some(r.categoryId) == Text(snippet, "categoryId")
      && Some(r.publishedAt) == Text(snippet, "publishedAt")
      && Text(snippet, "description").Some?
      && r.description == Truncate(Text(snippet, "description").value)
      && Index(item, "contentDetails").Some?
      && Some(r.duration) == Text(item.fields["contentDetails"], "duration")
      && Index(snippet, "thumbnails").Some?
      && Index(snippet.fields["thumbnails"], "medium").Some?
      && Some(r.thumbnail) == Text(snippet.fields["thumbnails"].fields["medium"], "url")
      && r.region == region
      && (region in Regions ==> r.regionName == Regions[region])
      && (region !in Regions ==> r.regionName == region)
  {
  }

  /** Absent counts are 0; present ones are the `int()` of the value sent. */
  lemma NormaliseCounts(item: Json, region: string)
    requires NormaliseItem(item, region).Some?
    ensures item.JObj? && "statistics" in item.fields && item.fields["statistics"].JObj?
    ensures Counted(item.fields["statistics"].fields, "viewCount", NormaliseItem(item, region).value.views)
    ensures Counted(item.fields["statistics"].fields, "likeCount", NormaliseItem(item, region).value.likes)
    ensures Counted(item.fields["statistics"].fields, "commentCount", NormaliseItem(item, region).value.comments)
  {
  }

  /** Each item of a response, normalised on its own. */
  function NormaliseEach(items: seq<Json>, region: string): (r: seq<Option<VideoFields>>)
    ensures |r| == |items|
  {
    seq(|items|, i requires 0 <= i < |items| => NormaliseItem(items[i], region))
  }

  /** The list built by the per-item loop; None as soon as one item raises. */
  function NormaliseAll(items: seq<Json>, region: string): Option<seq<VideoFields>> {
    AllSome(NormaliseEach(items, region))
  }

  /** One record per item, in item order, unless some item raises. */
  lemma NormaliseAllSpec(items: seq<Json>, region: string)
    ensures NormaliseAll(items, region).None? <==>
              exists i :: 0 <= i < |items| && NormaliseItem(items[i], region).None?
    ensures NormaliseAll(items, region).Some? ==>
              |NormaliseAll(items, region).value| == |items| &&
              forall i :: 0 <= i < |items| ==>
                NormaliseItem(items[i], region) == Some(NormaliseAll(items, region).value[i])
  {
    var each := NormaliseEach(items, region);
    AllSomeSpec(each);
    assert forall i :: 0 <= i < |items| ==> each[i] == NormaliseItem(items[i], region);
    if AllSome(each).None? {
      var i :| 0 <= i < |each| && each[i].None?;
      assert NormaliseItem(items[i], region).None?;
    }
  }

  /** `(part / views * 100).fillna(0)` for one row, over exact reals. */
  function RateOf(part: int, views: int): (r: Rate)
    ensures views != 0 ==> r.Finite? && r.value * (views as real) == (part as real) * 100.0
    ensures views == 0 ==> (r == Finite(0.0) <==> part == 0)
    ensures views == 0 && part > 0 ==> r == PosInf
    ensures views == 0 && part < 0 ==> r == NegInf
    ensures 0 <= part && 0 < views ==> r.Finite? && 0.0 <= r.value
    ensures 0 <= part <= views && 0 < views ==> r.Finite? && r.value <= 100.0
  {
    if views != 0 then Finite(part as real / views as real * 100.0)
    else if part == 0 then Finite(0.0)
    else if part > 0 then PosInf
    else NegInf
  }

  /** `calculate_hours_since_published`: live hours with NaN as 0, or all 0 when it raises. */
  function HoursColumn(published: seq<string>, clock: Clock): (r: seq<real>)
    ensures |r| == |published|
    ensures clock.hoursRaise ==> forall i :: 0 <= i < |r| ==> r[i] == 0.0
    ensures !clock.hoursRaise ==>
              forall i :: 0 <= i < |r| ==> r[i] == clock.hoursSince(published[i]).GetOr(0.0)
  {
    if clock.hoursRaise then seq(|published|, _ => 0.0)
    else seq(|published|, i requires 0 <= i < |published| => clock.hoursSince(published[i]).GetOr(0.0))
  }

  /** `df['category_id'].map(categories).fillna('Unknown')` for one row. */
  function CategoryName(categories: map<string, string>, categoryId: string): string {
    if categoryId in categories then categories[categoryId] else Unknown
  }

  /** `df['published_at']`: the publishedAt column of the rows, in row order. */
  function PublishedColumn(rows: seq<VideoFields>): (r: seq<string>)
    ensures |r| == |rows|
    ensures forall i :: 0 <= i < |r| ==> r[i] == rows[i].publishedAt
  {
    seq(|rows|, i requires 0 <= i < |rows| => rows[i].publishedAt)
  }

  /** The table-wide columns added to a non-empty list of records. */
  function Annotate(rows: seq<VideoFields>, categories: map<string, string>, clock: Clock): (r: seq<VideoRecord>)
    ensures |r| == |rows|
    ensures forall i :: 0 <= i < |r| ==> r[i].fields == rows[i] && r[i].fetchTime == clock.fetchTime
    ensures forall i :: 0 <= i < |r| && rows[i].categoryId in categories ==>
              r[i].categoryName == categories[rows[i].categoryId]
    ensures forall i :: 0 <= i < |r| && rows[i].categoryId !in categories ==>
              r[i].categoryName == Unknown
    ensures forall i :: 0 <= i < |r| ==>
              r[i].engagementRate == RateOf(rows[i].likes, rows[i].views) &&
              r[i].commentRate == RateOf(rows[i].comments, rows[i].views)
    ensures clock.hoursRaise ==> forall i :: 0 <= i < |r| ==> r[i].hoursSincePublished == 0.0
    ensures !clock.hoursRaise ==> forall i :: 0 <= i < |r| ==>
              r[i].hoursSincePublished == clock.hoursSince(rows[i].publishedAt).GetOr(0.0)
  {
    var hours := HoursColumn(PublishedColumn(rows), clock);
    seq(|rows|, i requires 0 <= i < |rows| =>
      VideoRecord(rows[i], clock.fetchTime, CategoryName(categories, rows[i].categoryId),
                  RateOf(rows[i].likes, rows[i].views), RateOf(rows[i].comments, rows[i].views),
                  hours[i]))
  }
}

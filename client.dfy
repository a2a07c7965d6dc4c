/**
 * The analytics client object. Its only state is the API key, which the
 * dashboard sets once it has one; every call reads it. The loops over the
 * response items are written out as the client runs them and proved equal
 * to the functions of module Fetch, whose properties are proved there.
 */
module Client {
  import opened Wrappers
  import opened Json
  import opened Http
  import opened Records
  import opened Fetch

  /** The loop filling the category dict: stops at the first item that raises. */
  method CollectCategories(items: seq<Json>) returns (table: Option<map<string, string>>)
    ensures table == CategoryTable(items)
  {
    var categories: map<string, string> := map[];
    for i := 0 to |items|
      invariant CategoryTable(items[..i]) == Some(categories)
    {
      assert items[..i + 1][..i] == items[..i];
      var entry := CategoryEntry(items[i]);
      if entry.None? {
        CategoryTableFails(items);
        return None;
      }
      if entry.value.Some? {
        categories := categories[entry.value.value.0 := entry.value.value.1];
      }
    }
    assert items[..|items|] == items;
    table := Some(categories);
  }

  /** The loop appending one record per item: stops at the first item that raises. */
  method CollectRows(items: seq<Json>, region: string) returns (rows: Option<seq<VideoFields>>)
    ensures rows == NormaliseAll(items, region)
  {
    var videos: seq<VideoFields> := [];
    for i := 0 to |items|
      invariant |videos| == i
      invariant forall k :: 0 <= k < i ==> NormaliseItem(items[k], region) == Some(videos[k])
    {
      var row := NormaliseItem(items[i], region);
      if row.None? {
        NormaliseAllSpec(items, region);
        return None;
      }
      videos := videos + [row.value];
    }
    NormaliseAllSpec(items, region);
    assert NormaliseAll(items, region).Some?;
    assert NormaliseAll(items, region).value == videos;
    rows := Some(videos);
  }

  class LiveAnalytics {
    /** `self.api_key`: None until the dashboard sets one. */
    var apiKey: Option<string>

    constructor ()
      ensures apiKey == None
    {
      apiKey := None;
    }

    method SetApiKey(key: string)
      modifies this
      ensures apiKey == Some(key)
    {
      apiKey := Some(key);
    }

    /** `test_api_connection()`: one probe request when a key is set, classified. */
    function TestApiConnection(net: Network): (r: Outcome<Connection>)
      reads this
      ensures !HasKey(apiKey) ==> r == Outcome(Reported(false, NoKeyMessage), [])
      ensures HasKey(apiKey) ==> r.requests == [ProbeRequest(apiKey.value)]
      ensures HasKey(apiKey) ==> r.result == Classify(net(ProbeRequest(apiKey.value)))
      ensures (r.result.Reported? && r.result.ok) <==>
                HasKey(apiKey) && net(ProbeRequest(apiKey.value)).Answered? &&
                net(ProbeRequest(apiKey.value)).reply.status == 200
    {
      if !HasKey(apiKey) then Outcome(Reported(false, NoKeyMessage), [])
      else
        var probe := ProbeRequest(apiKey.value);
        Outcome(Classify(net(probe)), [probe])
    }

    /** `get_video_categories(region)` */
    method GetVideoCategories(region: string, net: Network)
      returns (categories: map<string, string>, requests: seq<Request>)
      ensures Outcome(categories, requests) == Categories(apiKey, region, net)
    {
      if !HasKey(apiKey) {
        return map[], [];
      }
      var req := CategoriesRequest(apiKey.value, region);
      requests := [req];
      var doc := Payload(net(req));
      if doc.None? {
        return map[], requests;
      }
      var items := Items(doc.value);
      if items.None? {
        return map[], requests;
      }
      var table := CollectCategories(items.value);
      categories := table.GetOr(map[]);
    }

    /** The DataFrame stage of both fetches. */
    method BuildTable(rows: seq<VideoFields>, region: string, net: Network, clock: Clock)
      returns (videos: seq<VideoRecord>, requests: seq<Request>)
      ensures Outcome(videos, requests) == Table(apiKey, rows, region, net, clock)
    {
      if rows == [] || !ParsesAll(rows, clock) {
        return [], [];
      }
      var categories;
      categories, requests := GetVideoCategories(region, net);
      videos := Annotate(rows, categories, clock);
    }

    /** `get_trending_videos(region, category, max_results)` */
    method GetTrendingVideos(region: string, category: Option<string>, maxResults: int,
                             net: Network, clock: Clock)
      returns (videos: seq<VideoRecord>, requests: seq<Request>)
      ensures Outcome(videos, requests) == Trending(apiKey, region, category, maxResults, net, clock)
    {
      if !HasKey(apiKey) {
        return [], [];
      }
      var params := map["part" := PStr(VideoParts), "chart" := PStr("mostPopular"),
                        "regionCode" := PStr(region),
                        "maxResults" := PInt(if maxResults < MaxPage then maxResults else MaxPage),
                        "key" := PStr(apiKey.value)];
      if category.Some? && category.value != "" {
        params := params["videoCategoryId" := PStr(category.value)];
      }
      var req := Request(BaseUrl + "/videos", params, 15);
      requests := [req];
      var doc := Payload(net(req));
      if doc.None? {
        return [], requests;
      }
      var items := Items(doc.value);
      if items.None? {
        return [], requests;
      }
      var rows := CollectRows(items.value, region);
      if rows.None? {
        return [], requests;
      }
      var more;
      videos, more := BuildTable(rows.value, region, net, clock);
      requests := requests + more;
    }

    /** `search_videos(query, region, max_results)` */
    method SearchVideos(query: string, region: string, maxResults: int, net: Network, clock: Clock)
      returns (videos: seq<VideoRecord>, requests: seq<Request>)
      ensures Outcome(videos, requests) == Search(apiKey, query, region, maxResults, net, clock)
    {
      if !HasKey(apiKey) {
        return [], [];
      }
      var search := SearchRequest(apiKey.value, query, region, maxResults);
      requests := [search];
      var doc := Payload(net(search));
      if doc.None? {
        return [], requests;
      }
      var items := Items(doc.value);
      if items.None? {
        return [], requests;
      }
      var ids := SearchIds(items.value);
      if ids.None? || ids.value == [] {
        return [], requests;
      }
      var lookup := VideosRequest(apiKey.value, Join(ids.value));
      requests := requests + [lookup];
      doc := Payload(net(lookup));
      if doc.None? {
        return [], requests;
      }
      items := Items(doc.value);
      if items.None? {
        return [], requests;
      }
      var rows := CollectRows(items.value, region);
      if rows.None? {
        return [], requests;
      }
      var more;
      videos, more := BuildTable(rows.value, region, net, clock);
      requests := requests + more;
    }
  }
}

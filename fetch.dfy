/**
 * The three API calls and the connection probe of the analytics client, as
 * functions of the remote service `net`: what each call requests, in which
 * order, and what it makes of the answers. Every failure degrades to an
 * empty result instead of propagating.
 */
module Fetch {
  import opened Wrappers
  import opened Json
  import opened Http
  import opened Records
  import Numerals

  const BaseUrl: string := "https://www.googleapis.com/youtube/v3"
  const VideoParts: string := "snippet,statistics,contentDetails"
  const MaxPage: int := 50
  const NoKeyMessage: string := "No API key provided"
  const SuccessMessage: string := "API connection successful"
  const DefaultDenial: string := "API key invalid or quota exceeded"

  /** `not self.api_key` is false: a key was set and it is not empty. */
  predicate HasKey(key: Option<string>) {
    key.Some? && key.value != ""
  }

  /** `status == 200` and `response.json()` decoded. */
  function Payload(x: Exchange): Option<Json> {
    if x.Answered? && x.reply.status == 200 && x.reply.body.Decoded? then Some(x.reply.body.doc) else None
  }

  /**
   * `for item in doc.get('items', [])`. Iterating a string or a dict yields
   * strings, and every loop below indexes its item by a key first, which
   * raises on a string: only an empty one goes through, as no items.
   */
  function Items(doc: Json): Option<seq<Json>> {
    var items :- Get(doc, "items", JArr([]));
    match items
    case JArr(xs) => Some(xs)
    case JStr(s) => if s == "" then Some([]) else None
    case JObj(m) => if m == map[] then Some([]) else None
    case _ => None
  }

  // ---------------------------------------------------------------------
  // Connection probe

  /** What `test_api_connection` returns, or an exception escaping it. */
  datatype Connection = Reported(ok: bool, message: string) | Uncaught

  function ProbeRequest(key: string): Request {
    Request(BaseUrl + "/videos",
            map["part" := PStr("snippet"), "chart" := PStr("mostPopular"),
                "maxResults" := PInt(1), "key" := PStr(key)],
            10)
  }

  /** A 403 reply: `error.message` from the body, or the default text. */
  function Denied(body: Body): Connection {
    match body
    case Undecodable(e) => Reported(false, "Connection Error: " + e)
    case Decoded(doc) =>
      match Get(doc, "error", JObj(map[]))
      case None => Uncaught
      case Some(err) =>
        match Get(err, "message", JStr(DefaultDenial))
        case None => Uncaught
        case Some(msg) => Reported(false, "API Error: " + Str(msg))
  }

  /** How the probe's exchange is classified once a key is present. */
  function Classify(x: Exchange): (r: Connection)
    ensures (r.Reported? && r.ok) <==> x.Answered? && x.reply.status == 200
    ensures r.Reported? && r.ok ==> r.message == SuccessMessage
    ensures x.Failed? ==> r == Reported(false, "Connection Error: " + x.error)
    ensures x.Answered? && x.reply.status != 200 && x.reply.status != 403 ==>
              r == Reported(false, "HTTP Error: " + Numerals.Decimal(x.reply.status))
    ensures x.Answered? && x.reply.status == 403 && x.reply.body.Undecodable? ==>
              r == Reported(false, "Connection Error: " + x.reply.body.error)
    ensures r.Uncaught? <==>
              && x.Answered? && x.reply.status == 403 && x.reply.body.Decoded?
              && var doc := x.reply.body.doc;
              (!doc.JObj? || ("error" in doc.fields && !doc.fields["error"].JObj?))
  {
    match x
    case Failed(e) => Reported(false, "Connection Error: " + e)
    case Answered(reply) =>
      if reply.status == 200 then Reported(true, SuccessMessage)
      else if reply.status == 403 then Denied(reply.body)
      else Reported(false, "HTTP Error: " + Numerals.Decimal(reply.status))
  }

  /** A 403 whose body carries `error.message` reports that message. */
  lemma DeniedReportsMessage(doc: Json, message: string)
    requires doc.JObj? && "error" in doc.fields
    requires doc.fields["error"].JObj? && "message" in doc.fields["error"].fields
    requires doc.fields["error"].fields["message"] == JStr(message)
    ensures Classify(Answered(Reply(403, Decoded(doc)))) == Reported(false, "API Error: " + message)
  {
  }

  /** A 403 whose body is an object without `error.message` reports the default text. */
  lemma DeniedReportsDefault(doc: Json)
    requires doc.JObj?
    requires "error" in doc.fields ==>
               doc.fields["error"].JObj? && "message" !in doc.fields["error"].fields
    ensures Classify(Answered(Reply(403, Decoded(doc)))) == Reported(false, "API Error: " + DefaultDenial)
  {
  }

  /** Any other status is reported with a code that reads back as that status. */
  lemma HttpErrorCode(x: Exchange)
    requires x.Answered? && x.reply.status != 200 && x.reply.status != 403
    ensures Classify(x).Reported? && !Classify(x).ok
    ensures |Classify(x).message| > |"HTTP Error: "|
    ensures Classify(x).message[..|"HTTP Error: "|] == "HTTP Error: "
    ensures Numerals.ParseInt(Classify(x).message[|"HTTP Error: "|..]) == Some(x.reply.status)
  {
    var code := Numerals.Decimal(x.reply.status);
    Numerals.DecimalRoundTrip(x.reply.status);
    assert Classify(x).message == "HTTP Error: " + code;
    assert Classify(x).message[|"HTTP Error: "|..] == code;
  }

  // ---------------------------------------------------------------------
  // Categories

  function CategoriesRequest(key: string, region: string): Request {
    Request(BaseUrl + "/videoCategories",
            map["part" := PStr("snippet"), "regionCode" := PStr(region), "key" := PStr(key)],
            10)
  }

  /**
   * One category item: Some(None) when it is not assignable, Some(Some((id,
   * title))) when it is, None when reading it raises.
   */
  function CategoryEntry(item: Json): Option<Option<(string, string)>> {
    var snippet :- Index(item, "snippet");
    var assignable :- Index(snippet, "assignable");
    if Truthy(assignable) then
      var title :- Text(snippet, "title");
      var id :- Text(item, "id");
      Some(Some((id, title)))
    else
      Some(None)
  }

  /** The item is an assignable category with this id and title. */
  predicate Lists(item: Json, id: string, title: string) {
    CategoryEntry(item) == Some(Some((id, title)))
  }

  /** The item is an assignable category with this id. */
  predicate Assigns(item: Json, id: string) {
    var e := CategoryEntry(item);
    e.Some? && e.value.Some? && e.value.value.0 == id
  }

  /** The dict filled by the loop over the items, later ids overwriting earlier ones. */
  function CategoryTable(items: seq<Json>): Option<map<string, string>>
    decreases |items|
  {
    if items == [] then Some(map[])
    else
      var table :- CategoryTable(items[..|items| - 1]);
      var entry :- CategoryEntry(items[|items| - 1]);
      if entry.Some? then Some(table[entry.value.0 := entry.value.1]) else Some(table)
  }

  lemma {:induction false} CategoryTableFails(items: seq<Json>)
    ensures CategoryTable(items).None? <==>
              exists i :: 0 <= i < |items| && CategoryEntry(items[i]).None?
    decreases |items|
  {
    if items != [] {
      var init := items[..|items| - 1];
      CategoryTableFails(init);
      assert forall i :: 0 <= i < |init| ==> init[i] == items[i];
    }
  }

  lemma {:induction false} CategoryTableKeys(items: seq<Json>, id: string)
    requires CategoryTable(items).Some?
    ensures id in CategoryTable(items).value <==>
              exists i :: 0 <= i < |items| && Assigns(items[i], id)
    decreases |items|
  {
    if items != [] {
      var init, last := items[..|items| - 1], items[|items| - 1];
      CategoryTableKeys(init, id);
      var head := CategoryTable(init).value;
      var entry := CategoryEntry(last).value;
      assert CategoryTable(items).value == if entry.Some? then head[entry.value.0 := entry.value.1] else head;
      if exists i :: 0 <= i < |init| && Assigns(init[i], id) {
        var i :| 0 <= i < |init| && Assigns(init[i], id);
        assert Assigns(items[i], id);
      }
      if exists i :: 0 <= i < |items| && Assigns(items[i], id) {
        var i :| 0 <= i < |items| && Assigns(items[i], id);
        if i < |init| {
          assert Assigns(init[i], id);
        }
      }
    }
  }

  lemma {:induction false} CategoryTableLastWins(items: seq<Json>, i: int, id: string, title: string)
    requires CategoryTable(items).Some?
    requires 0 <= i < |items| && Lists(items[i], id, title)
    requires forall j :: i < j < |items| ==> !Assigns(items[j], id)
    ensures id in CategoryTable(items).value && CategoryTable(items).value[id] == title
    decreases |items|
  {
    var init, last := items[..|items| - 1], items[|items| - 1];
    var head := CategoryTable(init).value;
    var entry := CategoryEntry(last).value;
    assert CategoryTable(items).value == if entry.Some? then head[entry.value.0 := entry.value.1] else head;
    if i < |init| {
      assert Lists(init[i], id, title);
      assert !Assigns(last, id);
      forall j | i < j < |init| ensures !Assigns(init[j], id) {
        assert init[j] == items[j];
      }
      CategoryTableLastWins(init, i, id, title);
    }
  }

  /**
   * The table fails exactly when some item raises; otherwise it holds the
   * ids of the assignable items, each with the title of its last occurrence.
   */
  lemma CategoryTableSpec(items: seq<Json>)
    ensures CategoryTable(items).None? <==>
              exists i :: 0 <= i < |items| && CategoryEntry(items[i]).None?
    ensures CategoryTable(items).Some? ==>
              forall id :: id in CategoryTable(items).value <==>
                exists i :: 0 <= i < |items| && Assigns(items[i], id)
    ensures CategoryTable(items).Some? ==>
              forall i, id, title ::
                0 <= i < |items| && Lists(items[i], id, title) &&
                (forall j :: i < j < |items| ==> !Assigns(items[j], id)) ==>
                id in CategoryTable(items).value && CategoryTable(items).value[id] == title
  {
    CategoryTableFails(items);
    if CategoryTable(items).Some? {
      forall id {
        CategoryTableKeys(items, id);
      }
      forall i, id, title |
        0 <= i < |items| && Lists(items[i], id, title) &&
        (forall j :: i < j < |items| ==> !Assigns(items[j], id))
      {
        CategoryTableLastWins(items, i, id, title);
      }
    }
  }

  /** What the categories response yields: None when any step of reading it raises. */
  function CategoriesIn(x: Exchange): Option<map<string, string>> {
    var doc :- Payload(x);
    var items :- Items(doc);
    CategoryTable(items)
  }

  /** `get_video_categories(region)` */
  function Categories(key: Option<string>, region: string, net: Network): Outcome<map<string, string>> {
    if !HasKey(key) then Outcome(map[], [])
    else
      var req := CategoriesRequest(key.value, region);
      Outcome(CategoriesIn(net(req)).GetOr(map[]), [req])
  }

  /**
   * Without a key nothing is requested and the map is empty; with one, a
   * single request is made, and the map holds exactly the assignable
   * categories of a readable 200 response and is empty otherwise.
   */
  lemma CategoriesContract(key: Option<string>, region: string, net: Network)
    ensures !HasKey(key) ==> Categories(key, region, net) == Outcome(map[], [])
    ensures HasKey(key) ==> Categories(key, region, net).requests == [CategoriesRequest(key.value, region)]
    ensures HasKey(key) && CategoriesIn(net(CategoriesRequest(key.value, region))).None? ==>
              Categories(key, region, net).result == map[]
    ensures HasKey(key) && Payload(net(CategoriesRequest(key.value, region))).None? ==>
              Categories(key, region, net).result == map[]
    ensures forall doc, items, id ::
              HasKey(key) && Payload(net(CategoriesRequest(key.value, region))) == Some(doc) &&
              Items(doc) == Some(items) && CategoryTable(items).Some? ==>
                (id in Categories(key, region, net).result <==>
                   exists i :: 0 <= i < |items| && Assigns(items[i], id))
    ensures forall doc, items, i, id, title ::
              HasKey(key) && Payload(net(CategoriesRequest(key.value, region))) == Some(doc) &&
              Items(doc) == Some(items) && CategoryTable(items).Some? &&
              0 <= i < |items| && Lists(items[i], id, title) &&
              (forall j :: i < j < |items| ==> !Assigns(items[j], id)) ==>
                id in Categories(key, region, net).result && Categories(key, region, net).result[id] == title
  {
    forall items: seq<Json> {
      CategoryTableSpec(items);
    }
  }

  // ---------------------------------------------------------------------
  // Trending videos

  /** The query of the trending call: the page size capped at 50, the category only when given. */
  function TrendingParams(key: string, region: string, category: Option<string>, maxResults: int): (r: map<string, Param>)
    ensures r.Keys == {"part", "chart", "regionCode", "maxResults", "key"} +
                      (if category.Some? && category.value != "" then {"videoCategoryId"} else {})
    ensures r["part"] == PStr(VideoParts) && r["chart"] == PStr("mostPopular")
    ensures r["regionCode"] == PStr(region) && r["key"] == PStr(key)
    ensures r["maxResults"].PInt? && r["maxResults"].i <= MaxPage
    ensures maxResults <= MaxPage ==> r["maxResults"] == PInt(maxResults)
    ensures maxResults >= MaxPage ==> r["maxResults"] == PInt(MaxPage)
    ensures "videoCategoryId" in r <==> category.Some? && category.value != ""
    ensures "videoCategoryId" in r ==> r["videoCategoryId"] == PStr(category.value)
  {
    var base := map["part" := PStr(VideoParts), "chart" := PStr("mostPopular"),
                    "regionCode" := PStr(region),
                    "maxResults" := PInt(if maxResults < MaxPage then maxResults else MaxPage),
                    "key" := PStr(key)];
    if category.Some? && category.value != "" then base["videoCategoryId" := PStr(category.value)] else base
  }

  function TrendingRequest(key: string, region: string, category: Option<string>, maxResults: int): Request {
    Request(BaseUrl + "/videos", TrendingParams(key, region, category, maxResults), 15)
  }

  /** The records built from a videos response: None when any step raises. */
  function RowsIn(x: Exchange, region: string): Option<seq<VideoFields>> {
    var doc :- Payload(x);
    var items :- Items(doc);
    NormaliseAll(items, region)
  }

  /** `pd.to_datetime` accepts the publishedAt column of the rows. */
  predicate ParsesAll(rows: seq<VideoFields>, clock: Clock) {
    clock.parses(PublishedColumn(rows))
  }

  /**
   * The DataFrame stage shared by both fetches: empty rows stay empty; a
   * publishedAt that does not parse raises (empty table); otherwise the
   * categories are fetched and the derived columns are added.
   */
  function Table(key: Option<string>, rows: seq<VideoFields>, region: string, net: Network, clock: Clock): (r: Outcome<seq<VideoRecord>>)
    ensures r.result != [] ==> |r.result| == |rows| && ParsesAll(rows, clock)
    ensures r.result != [] ==> r.requests == Categories(key, region, net).requests
    ensures r.result != [] ==> r.result == Annotate(rows, Categories(key, region, net).result, clock)
    ensures forall i :: 0 <= i < |r.result| ==>
              r.result[i].fields == rows[i] && r.result[i].fetchTime == clock.fetchTime &&
              r.result[i].categoryName == CategoryName(Categories(key, region, net).result, rows[i].categoryId)
    ensures rows != [] && ParsesAll(rows, clock) ==> r.result != []
    ensures rows == [] || !ParsesAll(rows, clock) ==> r == Outcome([], [])
  {
    if rows == [] then Outcome([], [])
    else if !ParsesAll(rows, clock) then Outcome([], [])
    else
      var categories := Categories(key, region, net);
      Outcome(Annotate(rows, categories.result, clock), categories.requests)
  }

  /** `get_trending_videos(region, category, max_results)` */
  function Trending(key: Option<string>, region: string, category: Option<string>, maxResults: int,
                    net: Network, clock: Clock): Outcome<seq<VideoRecord>>
  {
    if !HasKey(key) then Outcome([], [])
    else
      var req := TrendingRequest(key.value, region, category, maxResults);
      match RowsIn(net(req), region)
      case None => Outcome([], [req])
      case Some(rows) =>
        var table := Table(key, rows, region, net, clock);
        Outcome(table.result, [req] + table.requests)
  }

  /**
   * Without a key nothing is requested. With one the trending request comes
   * first; a failed or unreadable response, or a single malformed item,
   * empties the whole table; a non-empty table has one record per item, in
   * item order.
   */
  lemma TrendingContract(key: Option<string>, region: string, category: Option<string>, maxResults: int,
                         net: Network, clock: Clock)
    ensures !HasKey(key) ==> Trending(key, region, category, maxResults, net, clock) == Outcome([], [])
    ensures HasKey(key) ==>
      var req := TrendingRequest(key.value, region, category, maxResults);
      var r := Trending(key, region, category, maxResults, net, clock);
      && |r.requests| >= 1 && r.requests[0] == req
      && (Payload(net(req)).None? ==> r == Outcome([], [req]))
      && (RowsIn(net(req), region).None? ==> r == Outcome([], [req]))
      && (forall doc, items ::
            Payload(net(req)) == Some(doc) && Items(doc) == Some(items) ==>
              && ((exists i :: 0 <= i < |items| && NormaliseItem(items[i], region).None?) ==>
                    r == Outcome([], [req]))
              && (r.result != [] ==>
                    |r.result| == |items| &&
                    forall i :: 0 <= i < |items| ==> NormaliseItem(items[i], region) == Some(r.result[i].fields)))
  {
    forall items: seq<Json> {
      NormaliseAllSpec(items, region);
    }
  }

  /**
   * A readable trending response whose items are all well formed: no items,
   * or dates that do not parse, give an empty table and no further request;
   * otherwise one record per item, in item order, annotated after one
   * category lookup.
   */
  lemma TrendingYields(key: Option<string>, region: string, category: Option<string>, maxResults: int,
                       net: Network, clock: Clock, doc: Json, items: seq<Json>, rows: seq<VideoFields>)
    requires HasKey(key)
    requires Payload(net(TrendingRequest(key.value, region, category, maxResults))) == Some(doc)
    requires Items(doc) == Some(items) && NormaliseAll(items, region) == Some(rows)
    ensures var req := TrendingRequest(key.value, region, category, maxResults);
      var r := Trending(key, region, category, maxResults, net, clock);
      && (rows == [] || !ParsesAll(rows, clock) ==> r == Outcome([], [req]))
      && (rows != [] && ParsesAll(rows, clock) ==>
            && |r.result| == |items|
            && (forall i :: 0 <= i < |items| ==> NormaliseItem(items[i], region) == Some(r.result[i].fields))
            && r.result == Annotate(rows, Categories(key, region, net).result, clock)
            && r.requests == [req] + Categories(key, region, net).requests)
  {
    TableStage(key, items, rows, region, net, clock);
  }

  /** The DataFrame stage over the records of well-formed items. */
  lemma TableStage(key: Option<string>, items: seq<Json>, rows: seq<VideoFields>, region: string,
                   net: Network, clock: Clock)
    requires NormaliseAll(items, region) == Some(rows)
    ensures rows == [] || !ParsesAll(rows, clock) ==> Table(key, rows, region, net, clock) == Outcome([], [])
    ensures rows != [] && ParsesAll(rows, clock) ==>
              var t := Table(key, rows, region, net, clock);
              && |t.result| == |items|
              && (forall i :: 0 <= i < |items| ==> NormaliseItem(items[i], region) == Some(t.result[i].fields))
              && t.result == Annotate(rows, Categories(key, region, net).result, clock)
              && t.requests == Categories(key, region, net).requests
  {
    NormaliseAllSpec(items, region);
  }

  // ---------------------------------------------------------------------
  // Search

  function SearchRequest(key: string, query: string, region: string, maxResults: int): Request {
    Request(BaseUrl + "/search",
            map["part" := PStr("snippet"), "q" := PStr(query), "type" := PStr("video"),
                "regionCode" := PStr(region), "maxResults" := PInt(maxResults),
                "order" := PStr("relevance"), "key" := PStr(key)],
            15)
  }

  function VideosRequest(key: string, ids: string): Request {
    Request(BaseUrl + "/videos",
            map["part" := PStr(VideoParts), "id" := PStr(ids), "key" := PStr(key)],
            15)
  }

  /**
   * `item['id']['videoId']`. A non-string id would pass here and make the
   * later `','.join` raise; with the same outcome, the model fails here.
   */
  function VideoIdOf(item: Json): Option<string> {
    var id :- Index(item, "id");
    Text(id, "videoId")
  }

  /** `[item['id']['videoId'] for item in items]` */
  function SearchIds(items: seq<Json>): Option<seq<string>> {
    AllSome(seq(|items|, i requires 0 <= i < |items| => VideoIdOf(items[i])))
  }

  /** The ids are those of the search items, one each, in result order. */
  lemma SearchIdsSpec(items: seq<Json>)
    ensures SearchIds(items).None? <==> exists i :: 0 <= i < |items| && VideoIdOf(items[i]).None?
    ensures SearchIds(items).Some? ==>
              |SearchIds(items).value| == |items| &&
              forall i :: 0 <= i < |items| ==> VideoIdOf(items[i]) == Some(SearchIds(items).value[i])
  {
    var each := seq(|items|, i requires 0 <= i < |items| => VideoIdOf(items[i]));
    AllSomeSpec(each);
    assert forall i :: 0 <= i < |items| ==> each[i] == VideoIdOf(items[i]);
    if SearchIds(items).None? {
      var i :| 0 <= i < |each| && each[i].None?;
      assert VideoIdOf(items[i]).None?;
    }
  }

  /** What the search response yields: None when any step of reading it raises. */
  function IdsIn(x: Exchange): Option<seq<string>> {
    var doc :- Payload(x);
    var items :- Items(doc);
    SearchIds(items)
  }

  /** `','.join(ids)` */
  function Join(ids: seq<string>): string
    decreases |ids|
  {
    if ids == [] then ""
    else if |ids| == 1 then ids[0]
    else ids[0] + "," + Join(ids[1..])
  }

  /** `s.split(',')`: how the `id` parameter is read back into its ids. */
  function Split(s: string): (r: seq<string>)
    ensures |r| >= 1
    decreases |s|
  {
    if s == [] then [""]
    else
      var rest := Split(s[1..]);
      if s[0] == ',' then [""] + rest else [[s[0]] + rest[0]] + rest[1..]
  }

  lemma {:induction false} SplitPlain(s: string)
    requires ',' !in s
    ensures Split(s) == [s]
    decreases |s|
  {
    if s != [] {
      SplitPlain(s[1..]);
      assert [s[0]] + s[1..] == s;
    }
  }

  lemma {:induction false} SplitAfter(a: string, b: string)
    requires ',' !in a
    ensures Split(a + "," + b) == [a] + Split(b)
    decreases |a|
  {
    if a == [] {
      assert a + "," + b == [','] + b;
      assert (a + "," + b)[1..] == b;
    } else {
      var s := a + "," + b;
      assert s[0] == a[0];
      assert s[1..] == a[1..] + "," + b;
      SplitAfter(a[1..], b);
      assert [a[0]] + a[1..] == a;
    }
  }

  /** Splitting the joined ids gives them back, when no id contains a comma. */
  lemma {:induction false} SplitJoin(ids: seq<string>)
    requires ids != []
    requires forall i :: 0 <= i < |ids| ==> ',' !in ids[i]
    ensures Split(Join(ids)) == ids
    decreases |ids|
  {
    if |ids| == 1 {
      SplitPlain(ids[0]);
    } else {
      SplitJoin(ids[1..]);
      SplitAfter(ids[0], Join(ids[1..]));
      assert [ids[0]] + ids[1..] == ids;
    }
  }

  /** `search_videos(query, region, max_results)` */
  function Search(key: Option<string>, query: string, region: string, maxResults: int,
                  net: Network, clock: Clock): Outcome<seq<VideoRecord>>
  {
    if !HasKey(key) then Outcome([], [])
    else
      var search := SearchRequest(key.value, query, region, maxResults);
      match IdsIn(net(search))
      case None => Outcome([], [search])
      case Some(ids) =>
        if ids == [] then Outcome([], [search])
        else
          var videos := VideosRequest(key.value, Join(ids));
          match RowsIn(net(videos), region)
          case None => Outcome([], [search, videos])
          case Some(rows) =>
            var table := Table(key, rows, region, net, clock);
            Outcome(table.result, [search, videos] + table.requests)
  }

  /**
   * Without a key nothing is requested. With one the search request comes
   * first. No ids: empty, and the statistics call is never made. Otherwise
   * the second request names exactly the ids, in search order; a failure in
   * either phase empties the table.
   */
  lemma SearchContract(key: Option<string>, query: string, region: string, maxResults: int,
                       net: Network, clock: Clock)
    ensures !HasKey(key) ==> Search(key, query, region, maxResults, net, clock) == Outcome([], [])
    ensures HasKey(key) ==>
      var search := SearchRequest(key.value, query, region, maxResults);
      var r := Search(key, query, region, maxResults, net, clock);
      && |r.requests| >= 1 && r.requests[0] == search
      && (IdsIn(net(search)).None? ==> r == Outcome([], [search]))
      && (IdsIn(net(search)) == Some([]) ==> r == Outcome([], [search]))
      && (forall ids :: IdsIn(net(search)) == Some(ids) && ids != [] ==>
            && |r.requests| >= 2
            && r.requests[1] == VideosRequest(key.value, Join(ids))
            && r.requests[1].params["id"] == PStr(Join(ids))
            && (RowsIn(net(r.requests[1]), region).None? ==> r == Outcome([], r.requests[..2]))
            && (forall doc, items ::
                  Payload(net(r.requests[1])) == Some(doc) && Items(doc) == Some(items) &&
                  (exists i :: 0 <= i < |items| && NormaliseItem(items[i], region).None?) ==>
                    r == Outcome([], r.requests[..2])))
  {
    forall items: seq<Json> {
      NormaliseAllSpec(items, region);
    }
  }

  /**
   * A search with ids whose statistics response is readable and whose items
   * are all well formed: no items, or dates that do not parse, give an empty
   * table after the two calls; otherwise one record per item, in item order,
   * annotated after one category lookup.
   */
  lemma SearchYields(key: Option<string>, query: string, region: string, maxResults: int,
                     net: Network, clock: Clock, ids: seq<string>, doc: Json, items: seq<Json>,
                     rows: seq<VideoFields>)
    requires HasKey(key)
    requires IdsIn(net(SearchRequest(key.value, query, region, maxResults))) == Some(ids) && ids != []
    requires Payload(net(VideosRequest(key.value, Join(ids)))) == Some(doc)
    requires Items(doc) == Some(items) && NormaliseAll(items, region) == Some(rows)
    ensures var search := SearchRequest(key.value, query, region, maxResults);
      var videos := VideosRequest(key.value, Join(ids));
      var r := Search(key, query, region, maxResults, net, clock);
      && (rows == [] || !ParsesAll(rows, clock) ==> r == Outcome([], [search, videos]))
      && (rows != [] && ParsesAll(rows, clock) ==>
            && |r.result| == |items|
            && (forall i :: 0 <= i < |items| ==> NormaliseItem(items[i], region) == Some(r.result[i].fields))
            && r.result == Annotate(rows, Categories(key, region, net).result, clock)
            && r.requests == [search, videos] + Categories(key, region, net).requests)
  {
    TableStage(key, items, rows, region, net, clock);
  }

  /** The ids in the statistics request are the search items' ids, in order. */
  lemma SearchBatchesIds(key: Option<string>, query: string, region: string, maxResults: int,
                         net: Network, clock: Clock, doc: Json, items: seq<Json>)
    requires HasKey(key)
    requires Payload(net(SearchRequest(key.value, query, region, maxResults))) == Some(doc)
    requires Items(doc) == Some(items) && items != []
    requires forall i :: 0 <= i < |items| ==> VideoIdOf(items[i]).Some? && ',' !in VideoIdOf(items[i]).value
    ensures var r := Search(key, query, region, maxResults, net, clock);
      && |r.requests| >= 2
      && r.requests[1].params["id"].PStr?
      && var sent := Split(r.requests[1].params["id"].s);
      && |sent| == |items|
      && forall i :: 0 <= i < |items| ==> VideoIdOf(items[i]) == Some(sent[i])
  {
    SearchIdsSpec(items);
    var ids := SearchIds(items).value;
    SplitJoin(ids);
  }
}

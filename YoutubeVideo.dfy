/**
 * The `YoutubeVideo` pipeline of youtube_video.py: the detail fetchers that turn API items
 * into rows, the batch combiner that fetches an id list chunk by chunk and renumbers ranks,
 * and the de-duplicating facades `get_all_videos` / `get_all_channels`.
 *
 * The YouTube Data API, the category lookup, the timezone conversion and the wall clock are
 * the fields of a `Client` value; everything else is modelled as the source computes it.
 */
module YoutubeVideo {
  import opened Wrappers
  import opened Utils
  import opened Frames

  /** `ID_SIZE_LIMIT`: the most ids one list request may carry. */
  const IdSizeLimit: nat := 50

  /** The literal 50 that `get_combined_data` multiplies `chunk_index` by. */
  const RankStride: int := 50

  // ===========================================================================
  // API items (JSON objects whose keys may be missing)
  // ===========================================================================

  datatype VideoSnippet = VideoSnippet(
    title: Option<string>,
    categoryId: Option<string>,
    channelId: Option<string>,
    channelTitle: Option<string>,
    tags: Option<seq<string>>,
    publishedAt: Option<string>)

  datatype ContentDetails = ContentDetails(duration: Option<string>)

  /** `viewCount` is None when the key is missing; the source then passes the integer 0 on. */
  datatype Statistics = Statistics(viewCount: Option<string>)

  datatype VideoItem = VideoItem(
    id: Option<string>,
    snippet: Option<VideoSnippet>,
    contentDetails: Option<ContentDetails>,
    statistics: Option<Statistics>)

  datatype ChannelSnippet = ChannelSnippet(
    title: Option<string>,
    customUrl: Option<string>,
    country: Option<string>,
    publishedAt: Option<string>)

  datatype ChannelItem = ChannelItem(id: Option<string>, snippet: Option<ChannelSnippet>)

  /**
   * The collaborators the source calls: the two list requests, `get_category` (None when
   * its request raises), `utc_to_local` (None when it raises) and `get_current_time`, read
   * once per built row (the argument is the row's position in its batch).
   */
  datatype Client = Client(
    videos: seq<string> -> Result<seq<VideoItem>, Error>,
    channels: seq<string> -> Result<seq<ChannelItem>, Error>,
    category: string -> Option<string>,
    toLocal: string -> Option<string>,
    clock: nat -> string)

  // ===========================================================================
  // Rows
  // ===========================================================================

  datatype VideoRow = VideoRow(
    videoId: string,
    title: string,
    durationSec: nat,
    viewsMillions: Millions,
    category: string,
    channelId: string,
    channelTitle: string,
    tags: seq<string>,
    publishedAt: string,
    extractedAt: string)

  datatype ChannelRow = ChannelRow(
    channelId: string,
    channelTitle: string,
    customUrl: string,
    country: string,
    publishedAt: string)

  // ===========================================================================
  // get_response_items (youtube_video.py:88-100)
  // ===========================================================================

  /** Exceptions are passed on; a response with zero items gives None. */
  function ResponseItems<T>(response: Result<seq<T>, Error>): (r: Result<Option<seq<T>>, Error>)
    ensures response.Err? <==> r.Err?
    ensures r.Err? ==> r.error == response.error
    ensures r.Ok? ==> (r.value.None? <==> response.value == [])
    ensures r.Ok? && r.value.Some? ==> r.value.value == response.value
  {
    match response
    case Err(e) => Err(e)
    case Ok(items) => if |items| == 0 then Ok(None) else Ok(Some(items))
  }

  // ===========================================================================
  // get_videos_by_ids (youtube_video.py:103-178)
  // ===========================================================================

  /** `utc_to_local` of an optional timestamp, with "" where the key is missing or it raises. */
  function LocalOrBlank(client: Client, timestamp: Option<string>): string {
    match timestamp
    case None => ""
    case Some(t) => client.toLocal(t).GetOr("")
  }

  /** The soft `tags` field: the item's tags, or none. */
  function SoftTags(item: VideoItem): seq<string> {
    if item.snippet.Some? && item.snippet.value.tags.Some? then item.snippet.value.tags.value else []
  }

  /** The soft `publishedAt` field of a video. */
  function SoftVideoPublished(client: Client, item: VideoItem): string {
    LocalOrBlank(client, if item.snippet.Some? then item.snippet.value.publishedAt else None)
  }

  /** The required video fields: present, a parseable duration and a category lookup that returns. */
  predicate VideoRequired(item: VideoItem, client: Client) {
    && item.id.Some?
    && item.snippet.Some?
    && item.snippet.value.title.Some?
    && item.contentDetails.Some?
    && item.contentDetails.value.duration.Some?
    && DurationToSecond(item.contentDetails.value.duration.value).Some?
    && item.statistics.Some?
    && item.snippet.value.categoryId.Some?
    && client.category(item.snippet.value.categoryId.value).Some?
    && item.snippet.value.channelId.Some?
    && item.snippet.value.channelTitle.Some?
  }

  /**
   * One pass of the item loop body: None when it raises, that is when a required field is
   * missing, the duration does not parse or the category lookup raises. `k` is the item's
   * position, which picks the clock reading stamped on the row.
   */
  function VideoRowOf(item: VideoItem, client: Client, k: nat): (r: Option<VideoRow>)
    ensures r.Some? <==> VideoRequired(item, client)
    ensures r.Some? ==>
              var sn := item.snippet.value;
              && r.value.videoId == item.id.value
              && r.value.title == sn.title.value
              && Some(r.value.durationSec) == DurationToSecond(item.contentDetails.value.duration.value)
              && r.value.viewsMillions == ConvertToMillions(item.statistics.value.viewCount)
              && Some(r.value.category) == client.category(sn.categoryId.value)
              && r.value.channelId == sn.channelId.value
              && r.value.channelTitle == sn.channelTitle.value
              && r.value.tags == SoftTags(item)
              && r.value.publishedAt == SoftVideoPublished(client, item)
              && r.value.extractedAt == client.clock(k)
  {
    var tags := SoftTags(item);
    var publishedAt := SoftVideoPublished(client, item);
    if item.id.None? || item.snippet.None? then None
    else
      var sn := item.snippet.value;
      if sn.title.None? || item.contentDetails.None? || item.contentDetails.value.duration.None? then None
      else
        match DurationToSecond(item.contentDetails.value.duration.value)
        case None => None
        case Some(seconds) =>
          if item.statistics.None? || sn.categoryId.None? then None
          else
            var views := ConvertToMillions(item.statistics.value.viewCount);
            match client.category(sn.categoryId.value)
            case None => None
            case Some(category) =>
              if sn.channelId.None? || sn.channelTitle.None? then None
              else
                Some(VideoRow(item.id.value, sn.title.value, seconds, views, category,
                              sn.channelId.value, sn.channelTitle.value, tags, publishedAt,
                              client.clock(k)))
  }

  /** Every item of a batch yields a row under `build` (`build` gets the item's position too). */
  predicate AllBuilt<I, R>(items: seq<I>, build: (I, nat) -> Option<R>) {
    forall k :: 0 <= k < |items| ==> build(items[k], k).Some?
  }

  /** The rows of a batch whose every item passed, with local ranks 1..|items|. */
  function RankedRows<I, R>(items: seq<I>, build: (I, nat) -> Option<R>): (rows: seq<(R, int)>)
    requires AllBuilt(items, build)
    ensures |rows| == |items|
    ensures forall k :: 0 <= k < |items| ==> rows[k] == (build(items[k], k).value, k + 1)
  {
    seq(|items|, k requires 0 <= k < |items| && AllBuilt(items, build) => (build(items[k], k).value, k + 1))
  }

  /**
   * What `get_videos_by_ids` returns or raises, for the list request `list` and the loop
   * body `build`: the list `[]` over the id limit, the request's exception, the iteration
   * over None, the column-less frame at the first item that raises, else the ranked table.
   */
  function RankedBatch<I, R>(ids: seq<string>, list: seq<string> -> Result<seq<I>, Error>,
                             build: (I, nat) -> Option<R>): Result<Chunk<R>, Error> {
    if |ids| > IdSizeLimit then Ok(EmptyList)
    else
      match ResponseItems(list(ids))
      case Err(e) => Err(e)
      case Ok(None) => Err(NoneNotIterable)
      case Ok(Some(items)) =>
        if AllBuilt(items, build) then Ok(RankedTable(RankedRows(items, build))) else Ok(EmptyFrame)
  }

  /**
   * The body of `get_videos_by_ids` over a row builder: the id-limit guard, one request,
   * then the item loop with its rank counter and its early `return df`.
   */
  method FetchRanked<I, R>(ids: seq<string>, list: seq<string> -> Result<seq<I>, Error>,
                           build: (I, nat) -> Option<R>) returns (r: Result<Chunk<R>, Error>)
    ensures |ids| > IdSizeLimit ==> r == Ok(EmptyList)
    ensures |ids| <= IdSizeLimit && list(ids).Err? ==> r == Err(list(ids).error)
    ensures |ids| <= IdSizeLimit && list(ids) == Ok([]) ==> r == Err(NoneNotIterable)
    ensures |ids| <= IdSizeLimit && list(ids).Ok? && list(ids).value != [] ==>
              var items := list(ids).value;
              if AllBuilt(items, build) then
                r.Ok? && r.value.RankedTable? && |r.value.ranked| == |items|
                && forall k :: 0 <= k < |items| ==> r.value.ranked[k] == (build(items[k], k).value, k + 1)
              else r == Ok(EmptyFrame)
    ensures r == RankedBatch(ids, list, build)
  {
    if |ids| > IdSizeLimit {
      return Ok(EmptyList);
    }
    var response := ResponseItems(list(ids));
    if response.Err? {
      return Err(response.error);
    }
    if response.value.None? {
      return Err(NoneNotIterable);
    }
    var items := response.value.value;
    var rows: seq<(R, int)> := [];
    var rank := 1;
    for i := 0 to |items|
      invariant rank == i + 1
      invariant |rows| == i
      invariant forall k :: 0 <= k < i ==> build(items[k], k).Some?
      invariant forall k :: 0 <= k < i ==> rows[k] == (build(items[k], k).value, k + 1)
    {
      var row := build(items[i], i);
      if row.None? {
        return Ok(EmptyFrame);
      }
      rows := rows + [(row.value, rank)];
      rank := rank + 1;
    }
    assert rows == RankedRows(items, build);
    return Ok(RankedTable(rows));
  }

  /** The loop body of `get_videos_by_ids` as a row builder. */
  function VideoBuilder(client: Client): (VideoItem, nat) -> Option<VideoRow> {
    (item: VideoItem, k: nat) => VideoRowOf(item, client, k)
  }

  /** What `get_videos_by_ids` returns or raises. */
  function VideoBatch(ids: seq<string>, client: Client): Result<Chunk<VideoRow>, Error> {
    RankedBatch(ids, client.videos, VideoBuilder(client))
  }

  /** `get_videos_by_ids`. */
  method FetchVideos(ids: seq<string>, client: Client) returns (r: Result<Chunk<VideoRow>, Error>)
    ensures r == VideoBatch(ids, client)
  {
    r := FetchRanked(ids, client.videos, VideoBuilder(client));
  }

  /**
   * A video batch is a ranked table exactly when it is within the id limit, the request
   * returns items and every item carries its required fields; the table then holds
   * item k's row with rank k + 1.
   */
  lemma VideoBatchRanked(ids: seq<string>, client: Client)
    ensures var b := VideoBatch(ids, client);
            var resp := client.videos(ids);
            (b.Ok? && b.value.RankedTable?)
              <==> (&& |ids| <= IdSizeLimit && resp.Ok? && resp.value != []
                    && forall k :: 0 <= k < |resp.value| ==> VideoRequired(resp.value[k], client))
    ensures var b := VideoBatch(ids, client);
            b.Ok? && b.value.RankedTable? ==>
              var items := client.videos(ids).value;
              && |b.value.ranked| == |items|
              && forall k :: 0 <= k < |items| ==>
                   b.value.ranked[k].0 == VideoRowOf(items[k], client, k).value && b.value.ranked[k].1 == k + 1
  {
    var resp := client.videos(ids);
    if |ids| <= IdSizeLimit && resp.Ok? {
      var items := resp.value;
      forall k | 0 <= k < |items|
        ensures VideoBuilder(client)(items[k], k).Some? <==> VideoRequired(items[k], client)
      {
      }
    }
  }

  /**
   * Within the id limit a video batch raises only when the request raises or returns no
   * items: an item without its required fields gives the empty frame, not an exception.
   */
  lemma VideoBatchFails(ids: seq<string>, client: Client)
    requires |ids| <= IdSizeLimit
    ensures Fails(VideoBatch(ids, client)) <==> VideoRequestFails(ids, client)
    ensures var resp := client.videos(ids);
            (resp.Ok? && resp.value != [] && !AllBuilt(resp.value, VideoBuilder(client)))
              ==> VideoBatch(ids, client) == Ok(EmptyFrame)
  {
  }

  /** Over the id limit no video request is made: the result is the list `[]` whatever the client. */
  lemma OversizedVideoBatch(ids: seq<string>, client: Client)
    requires |ids| > IdSizeLimit
    ensures VideoBatch(ids, client) == Ok(EmptyList)
  {
  }

  /** Over the id limit no channel request is made either. */
  lemma OversizedChannelBatch(ids: seq<string>, client: Client)
    requires |ids| > IdSizeLimit
    ensures ChannelBatch(ids, client) == Ok(EmptyList)
  {
  }

  // ===========================================================================
  // get_channels_by_ids (youtube_video.py:181-240)
  // ===========================================================================

  /** The soft `publishedAt` field of a channel. */
  function SoftChannelPublished(client: Client, item: ChannelItem): string {
    LocalOrBlank(client, if item.snippet.Some? then item.snippet.value.publishedAt else None)
  }

  /** One pass of the channel item loop: None when `id` or `snippet.title` is missing. */
  function ChannelRowOf(item: ChannelItem, client: Client): (r: Option<ChannelRow>)
    ensures r.Some? <==> item.id.Some? && item.snippet.Some? && item.snippet.value.title.Some?
    ensures r.Some? ==>
              && r.value.channelId == item.id.value
              && r.value.channelTitle == item.snippet.value.title.value
              && r.value.customUrl == item.snippet.value.customUrl.GetOr("")
              && r.value.country == item.snippet.value.country.GetOr("")
              && r.value.publishedAt == SoftChannelPublished(client, item)
  {
    var url := if item.snippet.Some? then item.snippet.value.customUrl.GetOr("") else "";
    var country := if item.snippet.Some? then item.snippet.value.country.GetOr("") else "";
    var publishedAt := SoftChannelPublished(client, item);
    if item.id.None? || item.snippet.None? || item.snippet.value.title.None? then None
    else Some(ChannelRow(item.id.value, item.snippet.value.title.value, url, country, publishedAt))
  }

  predicate AllChannelRowsBuilt(items: seq<ChannelItem>, client: Client) {
    forall k :: 0 <= k < |items| ==> ChannelRowOf(items[k], client).Some?
  }

  function ChannelRows(items: seq<ChannelItem>, client: Client): (rows: seq<ChannelRow>)
    requires AllChannelRowsBuilt(items, client)
    ensures |rows| == |items|
    ensures forall k :: 0 <= k < |items| ==> rows[k] == ChannelRowOf(items[k], client).value
  {
    seq(|items|, k requires 0 <= k < |items| && AllChannelRowsBuilt(items, client) =>
      ChannelRowOf(items[k], client).value)
  }

  /** What `get_channels_by_ids` returns or raises. */
  function ChannelBatch(ids: seq<string>, client: Client): Result<Chunk<ChannelRow>, Error> {
    if |ids| > IdSizeLimit then Ok(EmptyList)
    else
      match ResponseItems(client.channels(ids))
      case Err(e) => Err(e)
      case Ok(None) => Err(NoneNotIterable)
      case Ok(Some(items)) =>
        if AllChannelRowsBuilt(items, client) then Ok(Table(ChannelRows(items, client))) else Ok(EmptyList)
  }

  /** `get_channels_by_ids`: the item loop with its early `return []`. */
  method FetchChannels(ids: seq<string>, client: Client) returns (r: Result<Chunk<ChannelRow>, Error>)
    ensures |ids| > IdSizeLimit ==> r == Ok(EmptyList)
    ensures |ids| <= IdSizeLimit && client.channels(ids).Err? ==> r == Err(client.channels(ids).error)
    ensures |ids| <= IdSizeLimit && client.channels(ids) == Ok([]) ==> r == Err(NoneNotIterable)
    ensures |ids| <= IdSizeLimit && client.channels(ids).Ok? && client.channels(ids).value != [] ==>
              var items := client.channels(ids).value;
              if AllChannelRowsBuilt(items, client) then
                r.Ok? && r.value.Table? && |r.value.rows| == |items|
                && forall k :: 0 <= k < |items| ==> r.value.rows[k] == ChannelRowOf(items[k], client).value
              else r == Ok(EmptyList)
    ensures r == ChannelBatch(ids, client)
  {
    if |ids| > IdSizeLimit {
      return Ok(EmptyList);
    }
    var response := ResponseItems(client.channels(ids));
    if response.Err? {
      return Err(response.error);
    }
    if response.value.None? {
      return Err(NoneNotIterable);
    }
    var items := response.value.value;
    var rows: seq<ChannelRow> := [];
    for i := 0 to |items|
      invariant |rows| == i
      invariant forall k :: 0 <= k < i ==> ChannelRowOf(items[k], client).Some?
      invariant forall k :: 0 <= k < i ==> rows[k] == ChannelRowOf(items[k], client).value
    {
      var row := ChannelRowOf(items[i], client);
      if row.None? {
        return Ok(EmptyList);
      }
      rows := rows + [row.value];
    }
    assert rows == ChannelRows(items, client);
    return Ok(Table(rows));
  }

  /**
   * Within the id limit a channel batch fails, by raising or by handing back `[]`, exactly
   * when the request raises, returns no items, or some item lacks `id` or `snippet.title`.
   */
  lemma ChannelBatchFails(ids: seq<string>, client: Client)
    requires |ids| <= IdSizeLimit
    ensures Fails(ChannelBatch(ids, client)) <==> ChannelRequestFails(ids, client)
  {
  }

  // ===========================================================================
  // get_combined_data (youtube_video.py:243-265)
  // ===========================================================================

  function Min(a: nat, b: nat): nat {
    if a < b then a else b
  }

  /** A fetched table's rows as frame entries, with a rank column moved by `offset`. */
  function ChunkEntries<R>(chunk: Chunk<R>, offset: int): (es: seq<Entry<R>>)
    ensures chunk.RankedTable? ==>
              && |es| == |chunk.ranked|
              && forall k :: 0 <= k < |es| ==>
                   && es[k].row == chunk.ranked[k].0
                   && es[k].rank.Some? && es[k].rank.value == chunk.ranked[k].1 + offset
    ensures chunk.Table? ==>
              && |es| == |chunk.rows|
              && forall k :: 0 <= k < |es| ==> es[k] == Entry(chunk.rows[k], None)
    ensures !chunk.HasColumns() ==> es == []
  {
    match chunk
    case RankedTable(rs) => seq(|rs|, k requires 0 <= k < |rs| => Entry(rs[k].0, Some(rs[k].1 + offset)))
    case Table(rows) => seq(|rows|, k requires 0 <= k < |rows| => Entry(rows[k], None))
    case _ => []
  }

  /** `pd.concat([frame, chunk])`, the chunk's ranks moved by `offset`. */
  function Concat<R>(frame: Frame<R>, chunk: Chunk<R>, offset: int): Frame<R> {
    Frame(frame.hasColumns || chunk.HasColumns(), frame.entries + ChunkEntries(chunk, offset))
  }

  /** `frame` followed by what the rest of the loop yields, or the exception the rest raises. */
  function Then<R>(frame: Frame<R>, rest: Result<Frame<R>, Error>): Result<Frame<R>, Error> {
    match rest
    case Err(e) => Err(e)
    case Ok(f) => Ok(Frame(frame.hasColumns || f.hasColumns, frame.entries + f.entries))
  }

  /** A fetch raises, or hands back the list `[]`, whose `.columns` raises in the combiner. */
  predicate Fails<R>(result: Result<Chunk<R>, Error>) {
    result.Err? || result.value.EmptyList?
  }

  /** The exception the combiner re-raises for a failing fetch. */
  function Raised<R>(result: Result<Chunk<R>, Error>): Error
    requires Fails(result)
  {
    if result.Err? then result.error else ListHasNoColumns
  }

  /**
   * What `get_combined_data` returns or raises for the remaining `ids`, once `chunkIndex`
   * tables with a rank column have been seen; `stride` stands for the literal 50.
   */
  function Combined<R>(ids: seq<string>, fetch: seq<string> -> Result<Chunk<R>, Error>,
                       chunkSize: nat, stride: int, chunkIndex: int): Result<Frame<R>, Error>
    requires chunkSize >= 1
    decreases |ids|
  {
    if ids == [] then Ok(Frame(false, []))
    else
      var n := Min(chunkSize, |ids|);
      var result := fetch(ids[..n]);
      if Fails(result) then Err(Raised(result))
      else
        var chunk := result.value;
        var next := if chunk.RankedTable? then chunkIndex + 1 else chunkIndex;
        Then(Concat(Frame(false, []), chunk, stride * chunkIndex),
             Combined(ids[n..], fetch, chunkSize, stride, next))
  }

  /** One pass of the loop over a chunk whose fetch succeeds. */
  lemma CombinedStep<R>(ids: seq<string>, fetch: seq<string> -> Result<Chunk<R>, Error>,
                        n: nat, stride: int, ci: int)
    requires n >= 1 && ids != []
    requires !Fails(fetch(ids[..Min(n, |ids|)]))
    ensures var m := Min(n, |ids|);
            var chunk := fetch(ids[..m]).value;
            Combined(ids, fetch, n, stride, ci)
              == Then(Frame(chunk.HasColumns(), ChunkEntries(chunk, stride * ci)),
                      Combined(ids[m..], fetch, n, stride, ci + RankedStep(fetch(ids[..m]))))
  {
    var m := Min(n, |ids|);
    var chunk := fetch(ids[..m]).value;
    assert [] + ChunkEntries(chunk, stride * ci) == ChunkEntries(chunk, stride * ci);
  }

  /** One pass of the loop over a chunk whose fetch succeeds, followed by a rest that succeeds. */
  lemma CombinedStepOk<R>(ids: seq<string>, fetch: seq<string> -> Result<Chunk<R>, Error>,
                          n: nat, stride: int, ci: int)
    requires n >= 1 && ids != []
    requires !Fails(fetch(ids[..Min(n, |ids|)]))
    requires Combined(ids[Min(n, |ids|)..], fetch, n, stride, ci + RankedStep(fetch(ids[..Min(n, |ids|)]))).Ok?
    ensures var m := Min(n, |ids|);
            var chunk := fetch(ids[..m]).value;
            var rest := Combined(ids[m..], fetch, n, stride, ci + RankedStep(fetch(ids[..m]))).value;
            var r := Combined(ids, fetch, n, stride, ci);
            && r.Ok?
            && r.value.entries == ChunkEntries(chunk, stride * ci) + rest.entries
            && r.value.hasColumns == (chunk.HasColumns() || rest.hasColumns)
  {
    CombinedStep(ids, fetch, n, stride, ci);
  }

  /** Appending to a frame and then the rest is appending the two in one go. */
  lemma ThenThen<R>(a: Frame<R>, b: Frame<R>, rest: Result<Frame<R>, Error>)
    ensures Then(a, Then(b, rest)) == Then(Frame(a.hasColumns || b.hasColumns, a.entries + b.entries), rest)
  {
    if rest.Ok? {
      assert a.entries + (b.entries + rest.value.entries) == (a.entries + b.entries) + rest.value.entries;
    }
  }

  /** The column-less empty frame is the unit of concatenation. */
  lemma ThenEmpty<R>(rest: Result<Frame<R>, Error>)
    ensures Then(Frame(false, []), rest) == rest
  {
    if rest.Ok? {
      assert [] + rest.value.entries == rest.value.entries;
    }
  }

  /**
   * `get_combined_data`: the `while ids` loop over chunks of `chunkSize` ids, moving each
   * ranked chunk by `chunk_index * 50` and re-raising whatever a fetch raises.
   * (With `chunk_size <= 0` the source never empties `ids`, so it loops until the fetcher
   * raises; the method needs `chunkSize >= 1`.)
   */
  method Combine<R>(ids: seq<string>, fetch: seq<string> -> Result<Chunk<R>, Error>, chunkSize: nat)
    returns (r: Result<Frame<R>, Error>)
    requires chunkSize >= 1
    ensures r == Combined(ids, fetch, chunkSize, RankStride, 0)
  {
    var chunkIndex := 0;
    var combined: Frame<R> := Frame(false, []);
    var rest := ids;
    ThenEmpty(Combined(ids, fetch, chunkSize, RankStride, 0));
    while rest != []
      invariant Combined(ids, fetch, chunkSize, RankStride, 0)
                  == Then(combined, Combined(rest, fetch, chunkSize, RankStride, chunkIndex))
      decreases |rest|
    {
      var n := Min(chunkSize, |rest|);
      var chunkIds := rest[..n];
      ghost var before := rest;
      rest := rest[n..];
      var result := fetch(chunkIds);
      if result.Err? {
        return Err(result.error);
      }
      var chunk := result.value;
      if chunk.EmptyList? {
        return Err(ListHasNoColumns);
      }
      var offset := chunkIndex * RankStride;
      ghost var index := chunkIndex;
      if chunk.RankedTable? {
        chunkIndex := chunkIndex + 1;
      }
      ThenThen(combined, Concat(Frame(false, []), chunk, RankStride * index),
               Combined(rest, fetch, chunkSize, RankStride, chunkIndex));
      assert [] + ChunkEntries(chunk, offset) == ChunkEntries(chunk, offset);
      combined := Concat(combined, chunk, offset);
    }
    assert combined.entries + [] == combined.entries;
    return Ok(combined);
  }

  // ---------------------------------------------------------------------------
  // Chunks: `ids[:chunk_size], ids[chunk_size:]` until nothing is left
  // ---------------------------------------------------------------------------

  /** The id lists the combiner hands to the fetcher, in calling order. */
  function Chunks(ids: seq<string>, n: nat): seq<seq<string>>
    requires n >= 1
    decreases |ids|
  {
    if ids == [] then []
    else
      var m := Min(n, |ids|);
      [ids[..m]] + Chunks(ids[m..], n)
  }

  function Flatten<T>(ss: seq<seq<T>>): seq<T> {
    if ss == [] then [] else ss[0] + Flatten(ss[1..])
  }

  lemma FlattenCons<T>(s: seq<T>, ss: seq<seq<T>>)
    ensures Flatten([s] + ss) == s + Flatten(ss)
  {
    assert ([s] + ss)[1..] == ss;
  }

  /** The chunks partition the ids in order; each has 1..n ids, and all but the last n. */
  lemma {:induction false} ChunksPartition(ids: seq<string>, n: nat)
    requires n >= 1
    ensures var cs := Chunks(ids, n);
            && Flatten(cs) == ids
            && (forall j :: 0 <= j < |cs| ==> 1 <= |cs[j]| <= n)
            && (forall j :: 0 <= j < |cs| - 1 ==> |cs[j]| == n)
    decreases |ids|
  {
    if ids != [] {
      var m := Min(n, |ids|);
      ChunksPartition(ids[m..], n);
      var cs := Chunks(ids, n);
      assert cs[1..] == Chunks(ids[m..], n);
      assert ids[..m] + ids[m..] == ids;
      if ids[m..] == [] {
        assert |cs| == 1;
      } else {
        assert m == n;
      }
    }
  }

  // ---------------------------------------------------------------------------
  // Failure: the first chunk whose fetch raises decides the exception
  // ---------------------------------------------------------------------------

  /** Chunk `j` is the first whose fetch fails. */
  predicate FirstFailure<R>(fetch: seq<string> -> Result<Chunk<R>, Error>, cs: seq<seq<string>>, j: int) {
    && 0 <= j < |cs|
    && Fails(fetch(cs[j]))
    && forall i :: 0 <= i < j ==> !Fails(fetch(cs[i]))
  }

  /** The combiner raises exactly when some chunk fails, and then raises the first failure's exception. */
  lemma {:induction false} CombinedRaises<R>(ids: seq<string>, fetch: seq<string> -> Result<Chunk<R>, Error>,
                                             n: nat, stride: int, ci: int)
    requires n >= 1
    ensures var cs := Chunks(ids, n);
            var r := Combined(ids, fetch, n, stride, ci);
            && (r.Err? <==> exists j :: 0 <= j < |cs| && Fails(fetch(cs[j])))
            && (r.Err? ==> exists j :: FirstFailure(fetch, cs, j) && r.error == Raised(fetch(cs[j])))
    decreases |ids|
  {
    if ids != [] {
      var m := Min(n, |ids|);
      var cs := Chunks(ids, n);
      var tail := Chunks(ids[m..], n);
      assert cs == [ids[..m]] + tail;
      var first := fetch(ids[..m]);
      if Fails(first) {
        assert FirstFailure(fetch, cs, 0);
      } else {
        var next := if first.value.RankedTable? then ci + 1 else ci;
        CombinedRaises(ids[m..], fetch, n, stride, next);
        var rest := Combined(ids[m..], fetch, n, stride, next);
        assert forall j :: 0 <= j < |tail| ==> cs[j + 1] == tail[j];
        if exists j :: 0 <= j < |cs| && Fails(fetch(cs[j])) {
          var j :| 0 <= j < |cs| && Fails(fetch(cs[j]));
          assert j > 0 && Fails(fetch(tail[j - 1]));
        }
        if rest.Err? {
          var j :| FirstFailure(fetch, tail, j) && rest.error == Raised(fetch(tail[j]));
          assert FirstFailure(fetch, cs, j + 1) by {
            forall i | 0 <= i < j + 1
              ensures !Fails(fetch(cs[i]))
            {
              if i > 0 {
                assert cs[i] == tail[i - 1];
              }
            }
          }
        }
      }
    }
  }

  // ---------------------------------------------------------------------------
  // Success: the chunks' tables one after another, each moved by stride * (ranked tables before it)
  // ---------------------------------------------------------------------------

  /** 1 when the fetch handed back a table with a rank column, else 0. */
  function RankedStep<R>(result: Result<Chunk<R>, Error>): nat {
    if result.Ok? && result.value.RankedTable? then 1 else 0
  }

  /** How many of the chunks `cs` came back with a rank column. */
  function RankedCount<R>(fetch: seq<string> -> Result<Chunk<R>, Error>, cs: seq<seq<string>>): nat {
    if cs == [] then 0 else RankedStep(fetch(cs[0])) + RankedCount(fetch, cs[1..])
  }

  /** The entries a chunk contributes at `offset`, none when its fetch raised. */
  function EntriesOf<R>(result: Result<Chunk<R>, Error>, offset: int): seq<Entry<R>> {
    match result
    case Ok(chunk) => ChunkEntries(chunk, offset)
    case Err(_) => []
  }

  /** Each chunk's entries, moved by the stride times the ranked chunks before it. */
  function Shifted<R>(fetch: seq<string> -> Result<Chunk<R>, Error>, cs: seq<seq<string>>,
                      stride: int, ci: int): (es: seq<seq<Entry<R>>>)
    ensures |es| == |cs|
  {
    seq(|cs|, i requires 0 <= i < |cs| => EntriesOf(fetch(cs[i]), stride * (ci + RankedCount(fetch, cs[..i]))))
  }

  /** Peeling the first chunk off the shifted entries. */
  lemma ShiftedCons<R>(fetch: seq<string> -> Result<Chunk<R>, Error>, c: seq<string>, cs: seq<seq<string>>,
                       stride: int, ci: int)
    ensures Shifted(fetch, [c] + cs, stride, ci)
              == [EntriesOf(fetch(c), stride * ci)] + Shifted(fetch, cs, stride, ci + RankedStep(fetch(c)))
  {
    var all := [c] + cs;
    var lhs := Shifted(fetch, all, stride, ci);
    var rhs := [EntriesOf(fetch(c), stride * ci)] + Shifted(fetch, cs, stride, ci + RankedStep(fetch(c)));
    assert all[..0] == [];
    forall i | 1 <= i < |all|
      ensures lhs[i] == rhs[i]
    {
      assert all[..i][1..] == cs[..i - 1];
      assert all[i] == cs[i - 1];
    }
  }

  /**
   * With no failing chunk, the combined frame is the chunks' tables in order, the ranks of
   * each moved by `stride` times the ranked tables before it, and it has columns exactly
   * when some chunk's table has.
   */
  lemma {:induction false} CombinedIsConcatenation<R>(ids: seq<string>, fetch: seq<string> -> Result<Chunk<R>, Error>,
                                                      n: nat, stride: int, ci: int)
    requires n >= 1
    requires forall j :: 0 <= j < |Chunks(ids, n)| ==> !Fails(fetch(Chunks(ids, n)[j]))
    ensures var cs := Chunks(ids, n);
            var r := Combined(ids, fetch, n, stride, ci);
            && r.Ok?
            && r.value.entries == Flatten(Shifted(fetch, cs, stride, ci))
            && (r.value.hasColumns <==> exists j :: 0 <= j < |cs| && fetch(cs[j]).Ok? && fetch(cs[j]).value.HasColumns())
    decreases |ids|
  {
    if ids != [] {
      var m := Min(n, |ids|);
      var first := fetch(ids[..m]);
      ChunksCons(ids, n);
      assert !Fails(first) by { assert Chunks(ids, n)[0] == ids[..m]; }
      forall j | 0 <= j < |Chunks(ids[m..], n)|
        ensures !Fails(fetch(Chunks(ids[m..], n)[j]))
      {
        assert Chunks(ids[m..], n)[j] == Chunks(ids, n)[j + 1];
      }
      var next := ci + RankedStep(first);
      CombinedIsConcatenation(ids[m..], fetch, n, stride, next);
      CombinedStepOk(ids, fetch, n, stride, ci);
      ShiftedChunksCons(ids, fetch, n, stride, ci);
      ColumnsCons(ids, fetch, n);
    }
  }

  /** The chunks of a non-empty id list: its first `n` ids, then the chunks of the rest. */
  lemma ChunksCons(ids: seq<string>, n: nat)
    requires n >= 1 && ids != []
    ensures Chunks(ids, n) == [ids[..Min(n, |ids|)]] + Chunks(ids[Min(n, |ids|)..], n)
  {
  }

  /** The shifted entries of all chunks: the first chunk's at `stride * ci`, then the rest's. */
  lemma ShiftedChunksCons<R>(ids: seq<string>, fetch: seq<string> -> Result<Chunk<R>, Error>,
                             n: nat, stride: int, ci: int)
    requires n >= 1 && ids != []
    requires !Fails(fetch(ids[..Min(n, |ids|)]))
    ensures var m := Min(n, |ids|);
            var first := fetch(ids[..m]);
            Flatten(Shifted(fetch, Chunks(ids, n), stride, ci))
              == ChunkEntries(first.value, stride * ci)
                 + Flatten(Shifted(fetch, Chunks(ids[m..], n), stride, ci + RankedStep(first)))
  {
    var m := Min(n, |ids|);
    var first := fetch(ids[..m]);
    ChunksCons(ids, n);
    ShiftedCons(fetch, ids[..m], Chunks(ids[m..], n), stride, ci);
    FlattenCons(EntriesOf(first, stride * ci), Shifted(fetch, Chunks(ids[m..], n), stride, ci + RankedStep(first)));
  }

  /** Some chunk of a non-empty id list has columns iff the first has or one of the rest's has. */
  lemma ColumnsCons<R>(ids: seq<string>, fetch: seq<string> -> Result<Chunk<R>, Error>, n: nat)
    requires n >= 1 && ids != []
    ensures var m := Min(n, |ids|);
            var cs := Chunks(ids, n);
            var tail := Chunks(ids[m..], n);
            (exists j :: 0 <= j < |cs| && fetch(cs[j]).Ok? && fetch(cs[j]).value.HasColumns())
              <==> (fetch(ids[..m]).Ok? && fetch(ids[..m]).value.HasColumns())
                   || (exists j :: 0 <= j < |tail| && fetch(tail[j]).Ok? && fetch(tail[j]).value.HasColumns())
  {
    var m := Min(n, |ids|);
    var cs := Chunks(ids, n);
    var tail := Chunks(ids[m..], n);
    ChunksCons(ids, n);
    assert cs[0] == ids[..m];
    if exists j :: 0 <= j < |cs| && fetch(cs[j]).Ok? && fetch(cs[j]).value.HasColumns() {
      var j :| 0 <= j < |cs| && fetch(cs[j]).Ok? && fetch(cs[j]).value.HasColumns();
      if j > 0 {
        assert cs[j] == tail[j - 1];
      }
    }
    if exists j :: 0 <= j < |tail| && fetch(tail[j]).Ok? && fetch(tail[j]).value.HasColumns() {
      var j :| 0 <= j < |tail| && fetch(tail[j]).Ok? && fetch(tail[j]).value.HasColumns();
      assert cs[j + 1] == tail[j];
    }
  }

  /** A fetch that hands back `size` rows ranked 1..size. */
  predicate FullRanks<R>(result: Result<Chunk<R>, Error>, size: nat) {
    && result.Ok?
    && result.value.RankedTable?
    && |result.value.ranked| == size
    && forall k :: 0 <= k < size ==> result.value.ranked[k].1 == k + 1
  }

  /**
   * With the stride equal to the chunk size and every chunk fully ranked, the combined ranks
   * run on without gaps: the frame has a row per id and row k has rank n * ci + k + 1.
   */
  lemma {:induction false} RanksContiguous<R>(ids: seq<string>, fetch: seq<string> -> Result<Chunk<R>, Error>,
                                              n: nat, ci: int)
    requires n >= 1
    requires forall j :: 0 <= j < |Chunks(ids, n)| ==> FullRanks(fetch(Chunks(ids, n)[j]), |Chunks(ids, n)[j]|)
    ensures var r := Combined(ids, fetch, n, n, ci);
            && r.Ok?
            && |r.value.entries| == |ids|
            && forall k :: 0 <= k < |ids| ==>
                 r.value.entries[k].rank.Some? && r.value.entries[k].rank.value == n * ci + k + 1
    decreases |ids|
  {
    if ids != [] {
      var m := Min(n, |ids|);
      var first := fetch(ids[..m]);
      ChunksCons(ids, n);
      assert FullRanks(first, m) by { assert Chunks(ids, n)[0] == ids[..m]; }
      forall j | 0 <= j < |Chunks(ids[m..], n)|
        ensures FullRanks(fetch(Chunks(ids[m..], n)[j]), |Chunks(ids[m..], n)[j]|)
      {
        assert Chunks(ids[m..], n)[j] == Chunks(ids, n)[j + 1];
      }
      RanksContiguous(ids[m..], fetch, n, ci + 1);
      CombinedStepOk(ids, fetch, n, n, ci);
      FullChunkRanks(first, m, n * ci);
      MulSucc(n, ci);
      assert ids[m..] != [] ==> m == n;
      RanksOfConcat(ChunkEntries(first.value, n * ci), Combined(ids[m..], fetch, n, n, ci + 1).value.entries,
                    n * ci, n * (ci + 1));
    }
  }

  /** A fully ranked table moved by `offset` is ranked offset + 1 .. offset + size. */
  lemma FullChunkRanks<R>(result: Result<Chunk<R>, Error>, size: nat, offset: int)
    requires FullRanks(result, size)
    ensures var es := ChunkEntries(result.value, offset);
            && |es| == size
            && forall k :: 0 <= k < size ==> es[k].rank.Some? && es[k].rank.value == offset + k + 1
  {
  }

  /** Two runs ranked on from `base` and from `nextBase` join into one run ranked on from `base`. */
  lemma RanksOfConcat<R>(head: seq<Entry<R>>, rest: seq<Entry<R>>, base: int, nextBase: int)
    requires forall k :: 0 <= k < |head| ==> head[k].rank.Some? && head[k].rank.value == base + k + 1
    requires forall k :: 0 <= k < |rest| ==> rest[k].rank.Some? && rest[k].rank.value == nextBase + k + 1
    requires rest != [] ==> nextBase == base + |head|
    ensures forall k :: 0 <= k < |head + rest| ==> (head + rest)[k].rank.Some? && (head + rest)[k].rank.value == base + k + 1
  {
  }

  lemma MulSucc(n: int, c: int)
    ensures n * (c + 1) == n * c + n
  {
  }

  /** A fetch that ranks every id of its chunk in order: the shape of the example below. */
  function EchoRanked(chunk: seq<string>): Result<Chunk<string>, Error> {
    Ok(RankedTable(seq(|chunk|, k requires 0 <= k < |chunk| => (chunk[k], k + 1))))
  }

  /**
   * The literal 50 against a chunk size of 2: the third id, first of the second chunk,
   * gets rank 51 instead of 3.
   */
  lemma RankGapWithSmallChunks()
    ensures Combined(["a", "b", "c"], EchoRanked, 2, RankStride, 0)
              == Ok(Frame(true, [Entry("a", Some(1)), Entry("b", Some(2)), Entry("c", Some(51))]))
  {
    var ids := ["a", "b", "c"];
    var last := ["c"];
    assert ids[..2] == ["a", "b"] && ids[2..] == last;
    assert last[..1] == last && last[1..] == [];
    var ab := EchoRanked(["a", "b"]);
    var c := EchoRanked(last);
    assert ab.value.ranked == [("a", 1), ("b", 2)];
    assert c.value.ranked == [("c", 1)];
    var tailEntries := ChunkEntries(c.value, RankStride * 1);
    assert tailEntries == [Entry("c", Some(51))];
    CombinedStep(last, EchoRanked, 2, RankStride, 1);
    assert Combined(last, EchoRanked, 2, RankStride, 1) == Ok(Frame(true, tailEntries + []));
    assert tailEntries + [] == tailEntries;
    var headEntries := ChunkEntries(ab.value, RankStride * 0);
    assert headEntries == [Entry("a", Some(1)), Entry("b", Some(2))];
    CombinedStep(ids, EchoRanked, 2, RankStride, 0);
    assert Combined(ids, EchoRanked, 2, RankStride, 0) == Ok(Frame(true, headEntries + tailEntries));
    assert headEntries + tailEntries == [Entry("a", Some(1)), Entry("b", Some(2)), Entry("c", Some(51))];
  }

  /** With the stride equal to the chunk size the same three ids are ranked 1, 2, 3. */
  lemma RanksWithMatchingStride()
    ensures var r := Combined(["a", "b", "c"], EchoRanked, 2, 2, 0);
            r.Ok? && |r.value.entries| == 3
            && r.value.entries[0].rank == Some(1) && r.value.entries[1].rank == Some(2)
            && r.value.entries[2].rank == Some(3)
  {
    var ids := ["a", "b", "c"];
    var cs := Chunks(ids, 2);
    ChunksPartition(ids, 2);
    forall j | 0 <= j < |cs|
      ensures FullRanks(EchoRanked(cs[j]), |cs[j]|)
    {
    }
    RanksContiguous(ids, EchoRanked, 2, 0);
  }

  /** With no ranked table anywhere the frame has no columns only if no chunk had any, and then no rows. */
  lemma {:induction false} ColumnlessIsEmpty<R>(ids: seq<string>, fetch: seq<string> -> Result<Chunk<R>, Error>,
                                                n: nat, stride: int, ci: int)
    requires n >= 1
    ensures var r := Combined(ids, fetch, n, stride, ci);
            r.Ok? && !r.value.hasColumns ==> r.value.entries == []
    decreases |ids|
  {
    if ids != [] {
      var m := Min(n, |ids|);
      var first := fetch(ids[..m]);
      if !Fails(first) {
        ColumnlessIsEmpty(ids[m..], fetch, n, stride, if first.value.RankedTable? then ci + 1 else ci);
      }
    }
  }

  // ===========================================================================
  // get_all_videos / get_all_channels (youtube_video.py:268-287)
  // ===========================================================================

  /** `self.get_videos_by_ids` as the combiner's `request_method`. */
  function VideoFetch(client: Client): seq<string> -> Result<Chunk<VideoRow>, Error> {
    (ids: seq<string>) => VideoBatch(ids, client)
  }

  /** `self.get_channels_by_ids` as the combiner's `request_method`. */
  function ChannelFetch(client: Client): seq<string> -> Result<Chunk<ChannelRow>, Error> {
    (ids: seq<string>) => ChannelBatch(ids, client)
  }

  function VideoKey(row: VideoRow): string {
    row.videoId
  }

  function ChannelKey(row: ChannelRow): string {
    row.channelId
  }

  /** A combined frame with its duplicates dropped when it has the key column. */
  function Deduplicated<R, K(==)>(combined: Result<Frame<R>, Error>, key: R -> K): Result<Frame<R>, Error> {
    match combined
    case Err(e) => Err(e)
    case Ok(f) => if f.hasColumns then Ok(Frame(true, DropDuplicates(f.entries, key))) else Ok(f)
  }

  /** What `get_all_videos` returns or raises. */
  function AllVideos(ids: seq<string>, client: Client): Result<Frame<VideoRow>, Error> {
    Deduplicated(Combined(ids, VideoFetch(client), IdSizeLimit, RankStride, 0), VideoKey)
  }

  /** What `get_all_channels` returns or raises. */
  function AllChannels(ids: seq<string>, client: Client): Result<Frame<ChannelRow>, Error> {
    Deduplicated(Combined(ids, ChannelFetch(client), IdSizeLimit, RankStride, 0), ChannelKey)
  }

  /** `get_all_videos`. */
  method GetAllVideos(ids: seq<string>, client: Client) returns (r: Result<Frame<VideoRow>, Error>)
    ensures r == AllVideos(ids, client)
  {
    r := Combine(ids, VideoFetch(client), IdSizeLimit);
    if r.Ok? && r.value.hasColumns {
      r := Ok(Frame(true, DropDuplicates(r.value.entries, VideoKey)));
    }
  }

  /** `get_all_channels`. */
  method GetAllChannels(ids: seq<string>, client: Client) returns (r: Result<Frame<ChannelRow>, Error>)
    ensures r == AllChannels(ids, client)
  {
    r := Combine(ids, ChannelFetch(client), IdSizeLimit);
    if r.Ok? && r.value.hasColumns {
      r := Ok(Frame(true, DropDuplicates(r.value.entries, ChannelKey)));
    }
  }

  /** A video request that raises, or a listing with no items. */
  predicate VideoRequestFails(ids: seq<string>, client: Client) {
    client.videos(ids).Err? || client.videos(ids) == Ok([])
  }

  /** A channel request that raises, a listing with no items, or an item without its required fields. */
  predicate ChannelRequestFails(ids: seq<string>, client: Client) {
    var resp := client.channels(ids);
    resp.Err? || resp == Ok([]) || (resp.Ok? && !AllChannelRowsBuilt(resp.value, client))
  }

  /**
   * `get_all_videos` raises exactly when the request for some chunk raises or returns no
   * items; videos missing required fields only empty their own chunk.
   */
  lemma AllVideosRaises(ids: seq<string>, client: Client)
    ensures var cs := Chunks(ids, IdSizeLimit);
            AllVideos(ids, client).Err? <==> exists j :: 0 <= j < |cs| && VideoRequestFails(cs[j], client)
  {
    var cs := Chunks(ids, IdSizeLimit);
    ChunksPartition(ids, IdSizeLimit);
    CombinedRaises(ids, VideoFetch(client), IdSizeLimit, RankStride, 0);
    forall j | 0 <= j < |cs|
      ensures Fails(VideoFetch(client)(cs[j])) <==> VideoRequestFails(cs[j], client)
    {
      VideoBatchFails(cs[j], client);
    }
  }

  /**
   * `get_all_channels` raises exactly when some chunk's request raises, returns no items, or
   * returns a channel without `id` or `snippet.title` (the fetcher's `[]` has no `.columns`).
   */
  lemma AllChannelsRaises(ids: seq<string>, client: Client)
    ensures var cs := Chunks(ids, IdSizeLimit);
            AllChannels(ids, client).Err? <==> exists j :: 0 <= j < |cs| && ChannelRequestFails(cs[j], client)
  {
    var cs := Chunks(ids, IdSizeLimit);
    ChunksPartition(ids, IdSizeLimit);
    CombinedRaises(ids, ChannelFetch(client), IdSizeLimit, RankStride, 0);
    forall j | 0 <= j < |cs|
      ensures Fails(ChannelFetch(client)(cs[j])) <==> ChannelRequestFails(cs[j], client)
    {
      ChannelBatchFails(cs[j], client);
    }
  }

  /** The request for `ids` returns one complete video per id. */
  predicate CompleteVideoBatch(ids: seq<string>, client: Client) {
    var resp := client.videos(ids);
    && resp.Ok?
    && |resp.value| == |ids|
    && forall k :: 0 <= k < |resp.value| ==> VideoRequired(resp.value[k], client)
  }

  /**
   * When every chunk comes back complete, the combined videos are ranked 1..|ids| before
   * duplicates are dropped: the stride 50 equals the chunk size `ID_SIZE_LIMIT`.
   */
  lemma AllVideosRanked(ids: seq<string>, client: Client)
    requires forall j :: 0 <= j < |Chunks(ids, IdSizeLimit)| ==> CompleteVideoBatch(Chunks(ids, IdSizeLimit)[j], client)
    ensures var r := Combined(ids, VideoFetch(client), IdSizeLimit, RankStride, 0);
            && r.Ok?
            && |r.value.entries| == |ids|
            && forall k :: 0 <= k < |ids| ==> r.value.entries[k].rank.Some? && r.value.entries[k].rank.value == k + 1
  {
    var cs := Chunks(ids, IdSizeLimit);
    ChunksPartition(ids, IdSizeLimit);
    forall j | 0 <= j < |cs|
      ensures FullRanks(VideoFetch(client)(cs[j]), |cs[j]|)
    {
      VideoBatchRanked(cs[j], client);
      assert ids != [];
      assert client.videos(cs[j]).value != [];
    }
    RanksContiguous(ids, VideoFetch(client), IdSizeLimit, 0);
  }

  /**
   * After `drop_duplicates` no two rows share a key, every key of the combined frame is
   * still there, and every row kept is a row of the combined frame.
   */
  lemma DeduplicatedFacts<R, K>(combined: Result<Frame<R>, Error>, key: R -> K)
    requires combined.Ok? && !combined.value.hasColumns ==> combined.value.entries == []
    ensures var r := Deduplicated(combined, key);
            && (r.Err? <==> combined.Err?)
            && (r.Ok? ==>
                  && (forall i, j :: 0 <= i < j < |r.value.entries| ==> key(r.value.entries[i].row) != key(r.value.entries[j].row))
                  && Keys(r.value.entries, key) == Keys(combined.value.entries, key)
                  && forall i :: 0 <= i < |r.value.entries| ==> r.value.entries[i] in combined.value.entries)
  {
    if combined.Ok? {
      DropDuplicatesDistinct(combined.value.entries, key);
    }
  }

  /** `get_all_videos` returns each video id once, and every id the chunks returned. */
  lemma AllVideosDistinct(ids: seq<string>, client: Client)
    ensures var c := Combined(ids, VideoFetch(client), IdSizeLimit, RankStride, 0);
            var r := AllVideos(ids, client);
            && (r.Err? <==> c.Err?)
            && (r.Ok? ==>
                  && (forall i, j :: 0 <= i < j < |r.value.entries| ==>
                        r.value.entries[i].row.videoId != r.value.entries[j].row.videoId)
                  && Keys(r.value.entries, VideoKey) == Keys(c.value.entries, VideoKey))
  {
    var c := Combined(ids, VideoFetch(client), IdSizeLimit, RankStride, 0);
    ColumnlessIsEmpty(ids, VideoFetch(client), IdSizeLimit, RankStride, 0);
    DeduplicatedFacts(c, VideoKey);
  }

  /** `get_all_channels` returns each channel id once, and every id the chunks returned. */
  lemma AllChannelsDistinct(ids: seq<string>, client: Client)
    ensures var c := Combined(ids, ChannelFetch(client), IdSizeLimit, RankStride, 0);
            var r := AllChannels(ids, client);
            && (r.Err? <==> c.Err?)
            && (r.Ok? ==>
                  && (forall i, j :: 0 <= i < j < |r.value.entries| ==>
                        r.value.entries[i].row.channelId != r.value.entries[j].row.channelId)
                  && Keys(r.value.entries, ChannelKey) == Keys(c.value.entries, ChannelKey))
  {
    var c := Combined(ids, ChannelFetch(client), IdSizeLimit, RankStride, 0);
    ColumnlessIsEmpty(ids, ChannelFetch(client), IdSizeLimit, RankStride, 0);
    DeduplicatedFacts(c, ChannelKey);
  }
}

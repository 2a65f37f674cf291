# YouTube trending pipeline: batching, normalisation and rank renumbering

This project models the data-acquisition core of a YouTube trending-videos pipeline, written in Dafny. The core turns a list of video ids into two de-duplicated tables, one of videos and one of channels.

- **Detail fetchers.** `get_videos_by_ids` and `get_channels_by_ids` each issue one list request for at most `ID_SIZE_LIMIT` (50) ids. Each reads the returned items field by field. Required fields abort the batch when missing. Optional fields fall back to an empty value. Videos get a local rank 1..k.
- **Batch combiner.** `get_combined_data` slices the id list into chunks, calls a fetcher on each chunk and concatenates the tables. When a table has a rank column, its ranks are moved by `chunk_index * 50`.
- **Facades and converters.**
  - The facades `get_all_videos` and `get_all_channels` combine in chunks of 50 and then drop duplicate keys, keeping the first.
  - The unit converters `covert_to_millions` and `duration_to_second` are applied to every video.

Layout:

- `Wrappers.dfy` holds `Option` and `Result`. They stand for Python's `None` results and raised exceptions.
- `Utils.dfy` holds the converters (pure functions and lemmas).
- `Frames.dfy` holds the pandas-shaped values: what a fetcher returns, the rows of a concatenated frame, and `drop_duplicates` with its properties.
- `YoutubeVideo.dfy` holds the fetchers and the combiner as methods with loops, each proved against a specification function, plus the facades and the lemmas about them.

The API, `get_category`, `utc_to_local` and the wall clock are the fields of a `Client` value:
- a list request returns items or raises;
- a lookup returns `None` where the source's call raises.

The model follows the code as written:
- **Rank offset.** Ranks are moved by the literal `chunk_index * 50`, not by `chunk_index * chunk_size`. See Findings.
- **Video item failure.** When a video item lacks a required field, `get_videos_by_ids` returns the column-less `pd.DataFrame()` created before the loop (youtube_video.py:126, 162). It does not return the rows built so far. The combiner adds nothing for that chunk and does not advance `chunk_index`.
- **Channel item failure.** When a channel item lacks `id` or `snippet.title`, `get_channels_by_ids` returns the list `[]` (youtube_video.py:229). `[].columns` then raises in the combiner, so the whole `get_all_channels` raises.
- **Empty response.** A response with zero items makes `get_response_items` return `None`. The loop `for item in None` then raises in both fetchers.

## Model

| member | source | states |
|---|---|---|
| YoutubeVideo.ResponseItems | youtube_video.py:88-100 | exceptions from the request pass through unchanged; the result is None exactly when the response has no items, and otherwise the items themselves |
| YoutubeVideo.VideoRowOf | youtube_video.py:137-162 | a video item yields a row exactly when id, title, duration, statistics, categoryId, channelId and channelTitle are present, the duration converts and the category lookup returns; the row then carries the required fields as given, the duration in seconds, the view count in millions, the looked-up category, the tags or none, the localised publish time or "", and the clock reading |
| YoutubeVideo.FetchRanked | youtube_video.py:103-178 | over the id limit the result is `[]`; a raising request raises; no items raises; otherwise the result is the ranked table (row k from item k, rank k+1) when every item builds, and the column-less frame as soon as one item fails |
| YoutubeVideo.FetchVideos | youtube_video.py:103-178 | `get_videos_by_ids` computes the video batch specification |
| YoutubeVideo.VideoBatchRanked | youtube_video.py:109-178 | a video batch is a ranked table iff it is within the limit, returns items and every item has its required fields; then row k is item k's row with rank k+1 |
| YoutubeVideo.VideoBatchFails | youtube_video.py:135-162 | within the limit a video batch raises only when the request raises or returns nothing; an item missing a field gives the empty frame instead |
| YoutubeVideo.OversizedVideoBatch | youtube_video.py:109-111 | more than 50 ids give `[]` from `get_videos_by_ids`, whatever the client |
| YoutubeVideo.OversizedChannelBatch | youtube_video.py:188-190 | more than 50 ids give `[]` from `get_channels_by_ids`, whatever the client |
| YoutubeVideo.ChannelRowOf | youtube_video.py:207-226 | a channel item yields a row iff id, snippet and snippet.title are present; customUrl and country fall back to "", publishedAt is the localised time or "" |
| YoutubeVideo.FetchChannels | youtube_video.py:181-240 | over the limit `[]`; a raising request raises; no items raises; otherwise the table of every item's row in order, or `[]` as soon as one item fails |
| YoutubeVideo.ChannelBatchFails | youtube_video.py:187-229 | within the limit a channel batch fails exactly when the request raises, returns nothing, or some item lacks a required field |
| YoutubeVideo.Combine | youtube_video.py:243-265 | the `while ids` loop computes `Combined` with the literal stride 50 and chunk index 0 |
| YoutubeVideo.ChunksPartition | youtube_video.py:251-253 | the chunks handed to the fetcher concatenate back to the ids in order; each holds 1..chunk_size ids, all but the last exactly chunk_size |
| YoutubeVideo.CombinedRaises | youtube_video.py:252-263 | the combiner raises iff some chunk's fetch raises or returns `[]`, and then it raises the first such chunk's exception |
| YoutubeVideo.CombinedIsConcatenation | youtube_video.py:254-259 | with no failing chunk the frame is every chunk's rows in order, each chunk's ranks moved by the stride times the ranked chunks before it; it has columns iff some chunk's table has |
| YoutubeVideo.ColumnlessIsEmpty | youtube_video.py:249-259 | a combined frame without columns has no rows |
| YoutubeVideo.RanksContiguous | youtube_video.py:255-258 | with the stride equal to the chunk size and every chunk fully ranked 1..k, the frame has one row per id and row k is ranked base + k + 1 |
| YoutubeVideo.RankGapWithSmallChunks | youtube_video.py:257 | ids a, b, c in chunks of 2 are ranked 1, 2, 51 as written |
| YoutubeVideo.RanksWithMatchingStride | youtube_video.py:255-258 | with the stride equal to the chunk size the same ids are ranked 1, 2, 3 |
| YoutubeVideo.GetAllVideos | youtube_video.py:268-277 | `get_all_videos` combines in chunks of 50 and drops duplicate video ids when the frame has columns |
| YoutubeVideo.GetAllChannels | youtube_video.py:279-287 | `get_all_channels` combines in chunks of 50 and drops duplicate channel ids when the frame has columns |
| YoutubeVideo.AllVideosRaises | youtube_video.py:268-271 | `get_all_videos` raises iff some chunk's request raises or returns no items |
| YoutubeVideo.AllChannelsRaises | youtube_video.py:279-282 | `get_all_channels` raises iff some chunk's request raises, returns no items or returns a channel missing a required field |
| YoutubeVideo.AllVideosRanked | youtube_video.py:268-271 | when every chunk returns one complete video per id, the combined ranks before de-duplication are exactly 1..number of ids |
| YoutubeVideo.AllVideosDistinct | youtube_video.py:273-275 | the result raises iff the combine raises; otherwise no two rows share a video id and the set of video ids is that of the combined frame |
| YoutubeVideo.AllChannelsDistinct | youtube_video.py:283-285 | the result raises iff the combine raises; otherwise no two rows share a channel id and the set of channel ids is that of the combined frame |
| YoutubeVideo.DeduplicatedFacts | youtube_video.py:273-275 | after the guarded drop, keys are distinct, all keys remain and every row kept is a combined row |
| Frames.DropDuplicates | youtube_video.py:275 | the kept rows are a subsequence of the input (some rows left out, the rest in order), so never more rows than the input |
| Frames.DropDuplicatesKeepsFirsts | youtube_video.py:275 | every row whose key no earlier row has is kept |
| Frames.DropSeenIsDropDuplicates | youtube_video.py:275 | a single front-to-back scan that remembers kept keys gives the same rows as the keep-first mask |
| Frames.DropDuplicatesDistinct | youtube_video.py:275 | the kept rows are rows of the input, pairwise distinct in key, covering every input key |
| Frames.DropDuplicatesOfDistinct | youtube_video.py:275 | rows whose keys are already distinct are kept as they are |
| Frames.DropDuplicatesIdempotent | youtube_video.py:285 | dropping duplicates a second time changes nothing |
| Frames.DropDuplicatesExample | youtube_video.py:275 | of three rows where the third repeats the first's key, the first two are kept |
| Utils.DigitsOf | utils.py:75 | the kept characters are all digits, never more than the input has; `DigitsOfCounts` and `DigitsOfConcat` state which ones and in what order |
| Utils.DigitsOfCounts | utils.py:75 | the kept characters are exactly the input's digits, each as often as in the input |
| Utils.DigitsOfConcat | utils.py:75 | filtering digits distributes over concatenation |
| Utils.DecimalRoundTrip | utils.py:77 | reading the decimal spelling of n gives back n |
| Utils.RoundToHundredths | utils.py:77 | the result is the nearest hundredth of a million, within half a unit, strictly unless the value is a tie |
| Utils.ConvertToMillions | utils.py:70-81 | the sentinel "" exactly when the count is not a string or has no digits; otherwise the nearest hundredth of the number of millions the digits spell |
| Utils.MillionsOfSeparatedCount | utils.py:70-81 | "1,234,567" gives 1.23 |
| Utils.MillionsEdgeCases | utils.py:74-81 | "n/a", "" and a non-string give the sentinel; "0" gives 0.00 |
| Utils.DurationToSecond | utils.py:48-53 | a number of seconds comes only from text starting with "P", and only below the limit of `timedelta` (999999999 days) |
| Utils.ParseDuration | utils.py:51 | a parsed text starts with "P" and has at least two characters; `DurationSpec` states its full meaning |
| Utils.DurationSpec | utils.py:51 | the parser accepts a text exactly when it spells a duration in the grammar P[nD][T[nH][nM][nS]], which is defined apart from the parser; the components it reads are the ones spelled, and no other spelling fits |
| Utils.DurationToSecondSpec | utils.py:48-53 | a text converts exactly when it spells a duration whose total fits in `timedelta`; then the result is days·86400 + hours·3600 + minutes·60 + seconds; a text outside the grammar is an error |
| Utils.FormatParseRoundTrip | utils.py:51 | every spelling PnDTnHnMnS with some component parses back to its components, where an omitted component is zero |
| Utils.FormatSeconds | utils.py:48-53 | such a spelling converts iff days·86400 + hours·3600 + minutes·60 + seconds fits in `timedelta`, and then to that number |
| Utils.HourMinuteSecondExample | utils.py:48-53 | "PT1H2M3S" is 3723 seconds |
| Utils.DayExample | utils.py:48-53 | "P1D" is 86400 seconds |
| Utils.EmptyTimeExample | utils.py:48-53 | "PT" is 0 seconds |
| Utils.TrailingTimeDesignator | utils.py:48-53 | a day count followed by an empty time part "T" is that many days in seconds |
| Utils.DayEmptyTimeExample | utils.py:48-53 | "P1DT" is 86400 seconds |
| Utils.OverflowExamples | utils.py:51 | 999999999 days convert; one day more is an error, as `timedelta` raises |
| Utils.FinalNewline | utils.py:51 | one newline after a text that does not end in one changes nothing, as Python's `$` matches before a final newline |
| Utils.TwoNewlines | utils.py:51 | a text ending in two newlines is an error |
| Utils.FinalNewlineExample | utils.py:48-53 | "PT1H\n" is 3600 seconds |
| Utils.TwoNewlinesExample | utils.py:48-53 | "PT1H\n\n" is an error |
| Utils.NewlineAfterPExample | utils.py:48-53 | "P\n" is an error |
| Utils.MalformedExamples | utils.py:48-53 | "", "P", "PD" and "1H2M3S" are errors in the modelled grammar |
| Utils.UndesignatedSeconds | utils.py:48-53 | any time part whose last number has no designator is an error |
| Utils.MissingDesignatorExample | utils.py:48-53 | "PT1H2M3", where the last number has no designator, is an error |

`ID_SIZE_LIMIT` (youtube_video.py:12) is the constant `YoutubeVideo.IdSizeLimit`. The literal 50 of youtube_video.py:257 is `YoutubeVideo.RankStride`.

## Left out

- Network, API client, category lookup, timezone conversion and clock are parameters, not models. The `youtube` client built in `__init__`, `get_category`, `utc_to_local` and `get_current_time` are fields of `Client`.
  - A lookup that raises is `None`.
  - `get_category`'s own fallback to "" is just one of the strings it may return.
- `get_trending_ids`, `handle_api_error` and `__init__` are left out.
  - `get_trending_ids` requests the trending list, takes the video ids out of the JSON reply (youtube_video.py:65-66), and on failure logs the API's message and re-raises (70-74). Its id list is the model's input.
  - `handle_api_error` makes no request. It reads the message out of the error's JSON body (78-82), logs it and re-raises the HttpError (84-85). That re-raised error, like a response without `items`, is the `ApiError` a list request may return.
  - `__init__` stores the two keys and builds the API client, re-raising if that fails (15-22). The client is the `Client` value here.
- `print` logging and `lambda_function.py` are left out. The lambda's glue joins the video table's channel ids into the channel request, and stores the tables. It is not part of this model.
- YoutubeVideo.VideoRowOf: the source reads the clock once for each row it builds. The model indexes the clock by the row's position in its batch, so two calls on the same batch see the same readings.
- YoutubeVideo.SoftTags: a missing `tags` list is the string "" in the source. The model uses the empty sequence, as tags are a sequence of strings here.
- YoutubeVideo.FetchVideos and YoutubeVideo.GetAllVideos: the combiner is handed the specification function of `get_videos_by_ids` (`VideoFetch`), not the method itself. Dafny cannot pass a method as a value. `FetchVideos` is proved to compute that function. The same holds for channels.
- YoutubeVideo.Combine: with `chunk_size <= 0` the source never empties `ids`, so it loops until the fetcher raises. The method requires a chunk size of at least 1.
- Utils.DurationToSecond: `isodate` is not part of this model. The grammar follows its period pattern for days, hours, minutes and seconds in whole numbers, where every component is optional: "PT" is 0 and "P1DT" is 86400 seconds, and only "P" alone is an error. As Python's `$` matches just before a final newline, one final newline is accepted ("PT1H\n" is 3600 seconds) and a second is an error. Years, months, weeks, fractions, a sign and the alternative `PYYYY-MM-DD` form, which `isodate` also reads, are treated as parse errors. So an item with such a duration counts as a required-field failure.
- Utils.DurationToSecond: the `OverflowError` of `timedelta` beyond 999999999 days is modelled as an error. Below that bound every total is under 2^53, so `total_seconds()` as a float and `int()` of it are exact, and the model uses whole numbers.
- Utils.ConvertToMillions: `str.isdigit` is modelled on the ASCII digits 0-9 only, and the float division and `round` are modelled exactly, ties to even. Binary floating point can round differently at ties, and overflows for very long digit strings. Neither is modelled.
- Pandas frames are modelled by their rows and whether they have columns. Column order, dtypes, NaN-filled ranks and the index are not modelled.

## Findings

| source | as written | input that shows it | evidently intended | confidence | as-written member | corrected member |
|---|---|---|---|---|---|---|
| youtube_video.py:257 | the ranks of each ranked chunk are moved by `chunk_index * 50`, whatever `chunk_size` is | `get_combined_data(["a", "b", "c"], f, 2)` with `f` ranking each chunk 1..k gives ranks 1, 2, 51 | move by `chunk_index * chunk_size`, so ranks run on without gaps (1, 2, 3) | not executed; the gap occurs only when chunk_size differs from 50, which neither facade does | YoutubeVideo.RankGapWithSmallChunks | YoutubeVideo.RanksContiguous |

Both members are instances of `YoutubeVideo.Combined`, which takes the stride as a parameter. The facades combine in chunks of 50 with stride 50, where the two agree. `AllVideosRanked` proves the corrected contiguity for them.

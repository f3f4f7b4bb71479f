# YouTube competitor analysis — a verified model of its core

The system compares one YouTube channel with four to seven competitors. It fetches each
channel's recent videos from the YouTube Data API, turns them into analytics and
writes a Google Slides report. This project models the parts that run between the
network and the slides, and proves properties about them:

- **Analytics engine** (`Analytics`). It computes:
  - per-video engagement;
  - outlier scores against the median of a channel's baseline videos;
  - per-channel summaries: totals, means, upload cadence and the top five videos;
  - the cross-channel comparison: three stable descending rankings, the top performer
    and a top-ten leaderboard.
- **Fetch-layer helpers** (`YouTubeApi`). It covers:
  - the parser for the ISO 8601 duration time part `PT#H#M#S`;
  - the two-stage Shorts filter;
  - the `@`-stripping of a handle;
  - the `UC`→`UU` uploads-playlist rewrite;
  - the subscriber-count reading;
  - the batching of video-detail lookups into groups of 50.
- **Handle de-duplication** (`Handles`, with the two loops `Pipeline.DeduplicateHandles`
  and `Cli.DeduplicateHandles`). A handle is compared in normal form, which means leading
  `@` signs stripped and then lowercased. The first competitor of each form survives, and
  no survivor has the primary channel's form.
- **Run validation** (`Run`, `Pipeline`, `Cli`):
  - the API-key check;
  - the 4..7 competitor-count checks before and after de-duplication;
  - the primary fetch, whose failure is fatal;
  - the competitor fetch loop, which needs at least 4 successes;
  - the summary with its quota estimate of 6 units per fetched channel.

  Both the web pipeline and the command line are modelled, each with its own messages.
- **Report helpers** (`SlidesRegistry`, `SlidesText`, `SlidesFallback`):
  - the objectId registries of the duplicable slides and their rename map;
  - thousands grouping, fixed-point formatting and ellipsis truncation;
  - the delete/insert/style request lists;
  - the bullet-marker colouring and the top-performer text ranges;
  - the data-driven fallback narrative: overview, trends, gaps, top-performer note,
    ideas and takeaways.

Counts are natural numbers. Rates, averages and scores are exact reals. `round(x, n)` and
`f"{x:.2f}"` are round-half-to-even applied to that real (module `Rounding`). The network
is passed in as function parameters:
- `fetch` for `fetch_channel_data`;
- `lookup` for the Data API's `channels.list` and `videos.list`;
- `isShort` for the Shorts HEAD request.

Where the source loops and appends, the model is a method with a loop. Each such method
is proved equal to a specification function, and the properties are lemmas about that
function. Python's `sorted(..., reverse=True)` and `list.sort(reverse=True)` are modelled
as `Sorting.SortDesc`, a stable insertion sort. It is proved to return a permutation,
sorted by non-increasing key, that keeps equal keys in input order.

## Model

| member | source | states |
|---|---|---|
| Sorting.SortDescCorrect | execution/analytics.py:50 | the descending sort is a permutation of its input, ordered by non-increasing key, and keeps elements of equal key in input order |
| Sorting.TopDescShape | execution/analytics.py:166-167 | the first `n` of the sort have length `min(n, len)`, are sorted, and are drawn from the input |
| Sorting.TopDescIsTop | execution/analytics.py:166-167 | no element left out of the first `n` has a larger key than one that is kept |
| Sorting.TopDescStable | execution/analytics.py:166-167 | of each class of equal keys, the kept elements are a prefix of that class in input order |
| Sorting.SortDescHead | execution/analytics.py:151 | the head of a non-empty sort is an input element whose key no input element exceeds |
| Sorting.SortDescHeadFirst | execution/analytics.py:151 | the head of a non-empty sort is the first input element with the greatest key |
| Sorting.SortAscCorrect | execution/analytics.py:33 | the ascending sort used by the median is a sorted permutation of the data |
| Sorting.SortedAscUnique | execution/analytics.py:33 | two ascending sequences with the same elements are equal, so the sorted order the median reads is unique |
| Decimal.Digits | execution/main.py:83 | `str(n)` is a non-empty run of decimal digits with no leading zero except for 0 itself |
| Decimal.ValueOfDigits | execution/youtube_api.py:106 | reading the decimal text of `n` back with `int()` gives `n` |
| Rounding.RoundHalfEven | execution/analytics.py:40 | the nearest integer, within one half of the argument, and even on a tie |
| Rounding.Round2Close | execution/analytics.py:40 | `round(x, 2)` moves `x` by at most 0.005 and keeps non-negative values non-negative |
| Rounding.Round1Close | execution/analytics.py:85 | `round(x, 1)` moves `x` by at most 0.05 and keeps non-negative values non-negative |
| Rounding.Round2Exact | execution/analytics.py:88 | a value with at most two decimals, an integer in particular, is unchanged by `round(x, 2)` |
| Rounding.Round1Exact | execution/analytics.py:85 | a value with at most one decimal is unchanged by `round(x, 1)` |
| Rounding.Fixed2Unsigned | execution/slides_report.py:84-95 | `f"{x:.2f}"` of a non-negative value is digits, a point, and exactly two digits |
| Rounding.Fixed2Value | execution/slides_report.py:84-95 | the digits of `f"{x:.2f}"`, read as hundredths, are `round(x, 2)` |
| Analytics.Engagement | execution/analytics.py:10-21 | 0 for a video with no views; otherwise `(likes + comments) * 100 / views`; never negative |
| Analytics.MedianOrderInsensitive | execution/analytics.py:33 | the median depends only on the multiset of baseline views |
| Analytics.MedianBounds | execution/analytics.py:33 | the median lies between the smallest and the largest baseline view count |
| Analytics.MedianEvenExample | execution/analytics.py:33 | for an even count the median is the mean of the two middle values (100..400 gives 250) |
| Analytics.OutlierScores | execution/analytics.py:35-45 | one record per period video, in input order, copying the video with its engagement; every score is 0 when the baseline median is not positive, otherwise the video's views over the median rounded to 2 decimals |
| Analytics.CalculateOutlierScores | execution/analytics.py:24-45 | each output record copies its input video with its engagement; the score is 0 when the median is not positive, otherwise `round(views / median, 2)`; the loop returns `OutlierScores` |
| Analytics.OutlierScoresNonNegative | execution/analytics.py:39-42 | outlier scores are never negative |
| Analytics.OutlierScoreExample | execution/analytics.py:32-42 | a 500-view video against baseline views 100..400 scores 2.0 |
| Analytics.RankTopVideosIsTop | execution/analytics.py:48-60 | the ranked videos are the first `n` of the stable descending sort of their projections by outlier score |
| Analytics.RankTopVideosCorrect | execution/analytics.py:48-60 | `min(n, len)` projections of input videos, by non-increasing score, with no left-out video scoring above a kept one, and ties in input order |
| Analytics.UploadFrequencyFloor | execution/analytics.py:87-88 | a window of up to seven days counts as one week, so the frequency is the video count |
| Analytics.UploadFrequencyWeeks | execution/analytics.py:87-88 | a longer window divides the count by `days / 7` and rounds to two decimals |
| Analytics.UploadFrequencyExample | execution/analytics.py:87-88 | two videos in a three-day window make 2.0 per week |
| Analytics.ChannelSummaryTotals | execution/analytics.py:74-104 | the channel id, name and subscriber count are copied and the role defaults to competitor; total views is the sum over the period videos and the video count is their number; for a non-empty period the engagement mean is rounded to 2 decimals and the duration mean to 1 decimal, and both are 0 for an empty period |
| Analytics.ChannelSummaryFrequency | execution/analytics.py:87-88 | the upload frequency is the period video count for a window of at most 7 days, and that count per 7 days rounded to 2 decimals for a window of at least 7 days |
| Analytics.ChannelSummaryTopVideos | execution/analytics.py:76-90 | the period videos are the scored copies of the videos after the cutoff; the top videos are the ranking of those: `min(5, period videos)` projections, best first, drawn from the projections, no left-out video outscoring a kept one, and ties kept in input order |
| Analytics.TopFiveOfEight | execution/analytics.py:90 | a channel with eight period videos keeps exactly five |
| Analytics.RankTopHeadIsMax | execution/analytics.py:136-139 | the first ranked video carries the maximum outlier score of all the videos, or 0 when there are none |
| Analytics.BestOutlierIsMax | execution/analytics.py:136-139 | a channel's highest outlier score, read off its first top video, is the maximum over its period videos, or 0 |
| Analytics.PooledContents | execution/analytics.py:154-164 | the pool holds one record per period video of every channel, each tagged with its channel's name |
| Analytics.PoolVideos | execution/analytics.py:154-164 | the nested appending loops compute `Pooled` |
| Analytics.BuildComparativeData | execution/analytics.py:107-175 | the method computes the comparison that `ComparativeOf` specifies |
| Analytics.ViewsRankingCorrect | execution/analytics.py:122-126 | the views ranking has one entry per channel, is ordered by non-increasing views, and keeps equal views in cohort order |
| Analytics.EngagementRankingCorrect | execution/analytics.py:129-133 | the engagement ranking has one entry per channel, is ordered by non-increasing average engagement, and is stable |
| Analytics.OutlierRankingCorrect | execution/analytics.py:141-148 | the outlier ranking has one entry per channel, is ordered by non-increasing best score, and is stable |
| Analytics.TopPerformerCorrect | execution/analytics.py:151 | the top performer is the channel with the most period views; among channels tied at the top, it is the first in the cohort, primary first |
| Analytics.LeaderboardCorrect | execution/analytics.py:154-167 | `min(10, pooled videos)` entries by non-increasing score; no pooled video left out outscores a kept one; ties keep pooling order; each entry is a tagged period video of a cohort channel |
| Analytics.PrimaryOnly | execution/analytics.py:119-167 | with no competitors, the primary channel is the top performer and the leaderboard is its own top ten |
| Analytics.ProcessAll | execution/analytics.py:178-202 | one summary for the primary and one per competitor, in order, with the window defaulting to 60 days, then the comparison of those summaries |
| Analytics.TopPerformerPresent | execution/analytics.py:151 | the analytics of a run always name a top performer, because the cohort holds at least the primary |
| YouTubeApi.DigitRun | execution/youtube_api.py:20 | `\d+` takes the longest run of leading digits |
| YouTubeApi.ParseFormatDuration | execution/youtube_api.py:19-27 | a duration written with any subset of H, M and S groups, in that order, parses to `h*3600 + m*60 + s` with absent groups counting 0; trailing text that starts with a non-digit is ignored |
| YouTubeApi.GroupStep | execution/youtube_api.py:20 | one optional group `(?:(\d+)X)?` reads its own value and leaves the next group's text |
| YouTubeApi.ParseDurationNoMatch | execution/youtube_api.py:19-23 | text not starting with `PT` does not match and gives 0 |
| YouTubeApi.ParseDurationDayPart | execution/youtube_api.py:19-23 | a duration with a day part, such as `P1DT2H`, gives 0 |
| YouTubeApi.FilterShorts | execution/youtube_api.py:44-72 | the two loops return the long-form videos in input order, then the short candidates the check rejects, and count the Shorts; kept plus counted equals the input length |
| YouTubeApi.LongCandidatePartition | execution/youtube_api.py:54-58 | every video is either long-form or a short candidate, never both |
| YouTubeApi.ShortsFilteredCorrect | execution/youtube_api.py:54-67 | the filter never adds or duplicates a video; it keeps every video over 180 s, drops every Short of 180 s or less, and keeps the other short videos |
| YouTubeApi.UploadsPlaylistId | execution/youtube_api.py:111-113 | a `UC` prefix becomes `UU` with the rest and the length unchanged; other ids are unchanged |
| YouTubeApi.UploadsPlaylistIdIdempotent | execution/youtube_api.py:111-113 | rewriting a rewritten id changes nothing |
| YouTubeApi.SubscriberCount | execution/youtube_api.py:105-106 | the count is hidden exactly when the statistic is absent or empty |
| YouTubeApi.SubscriberCountOfDigits | execution/youtube_api.py:105-106 | a count reported in decimal reads back as that count |
| YouTubeApi.ResolveHandle | execution/youtube_api.py:89-121 | the lookup uses the handle without its leading `@`; an empty answer is the not-found error naming that handle; otherwise the first item decides: an unparsable subscriber count is exactly the bad-count error, and a success copies the id and title, gives no subscriber count when it is hidden and the parsed one when it is shown, takes the total views as the view count or 0, and rewrites the uploads playlist |
| YouTubeApi.ChunksCorrect | execution/youtube_api.py:195-196 | the batches concatenate back to the ids; all but the last hold 50 ids and the last holds 1 to 50; there are `ceil(len / 50)` of them |
| YouTubeApi.VideoRecord | execution/youtube_api.py:202-214 | a result record copies the video's id, title and publish date; each present statistic is copied and each missing one counts 0; the duration is the parsed ISO 8601 duration |
| YouTubeApi.GetVideoDetails | execution/youtube_api.py:188-216 | the batch loop returns the records of the lookups of consecutive batches of at most 50 ids, concatenated |
| Handles.StripAtCorrect | execution/pipeline.py:27 | `lstrip("@")` removes exactly the longest prefix of `@` signs |
| Handles.StripAtIdempotent | execution/pipeline.py:27 | stripping twice is stripping once |
| Handles.LowerCorrect | execution/pipeline.py:27 | lowercasing works character by character and keeps the length |
| Handles.NormalizeIgnoresAt | execution/pipeline.py:23 | a leading `@` does not change a handle's normal form |
| Handles.NormalizeIgnoresCase | execution/pipeline.py:23 | letter case does not change a handle's normal form |
| Handles.SeenFormsKept | execution/pipeline.py:28-32 | a competitor is skipped exactly when its form is already in `seen` |
| Handles.DedupCount | execution/pipeline.py:26-32 | every competitor is either kept or warned about, never both |
| Handles.DedupCorrectBy | execution/pipeline.py:26-32 | for any normal form: an order-preserving subsequence; none has the primary's form; forms pairwise distinct; exactly the first occurrence of each other form is kept |
| Handles.DedupCorrect | execution/pipeline.py:20-34 | the same properties, for the program's normal form |
| Handles.DedupIdempotent | execution/pipeline.py:20-34 | de-duplicating the result again returns it unchanged with no warnings |
| Pipeline.DeduplicateHandles | execution/pipeline.py:20-34 | the loop returns the survivors and one warning per skipped competitor, and the two lists account for every competitor |
| Pipeline.RunPipeline | execution/pipeline.py:56-124 | the web pipeline ends with the error message of the first failing check, in the source's order, or with the raw data and the summary of the run |
| Pipeline.FetchAndSummarize | execution/pipeline.py:82-124 | a failed primary fetch ends the run; otherwise the competitors are fetched, and fewer than 4 successes ends the run |
| Pipeline.FetchCompetitors | execution/pipeline.py:98-112 | the loop keeps the fetched data in order, records the failed handles in order, and adds up the video counts |
| Run.FetchPartition | execution/pipeline.py:98-112 | every competitor is either fetched or listed as failed; each failed one did fail; fetched ones get the competitor role |
| Run.RunStops | execution/pipeline.py:56-116 | a run stops with an error exactly when the key is missing, there are fewer than 4 or more than 7 competitors, fewer than 4 survive de-duplication, the primary fetch fails, or fewer than 4 competitors are fetched |
| Run.RunDone | execution/pipeline.py:191-192 | a finished run fetched the primary and 4..7 competitors, accounts for every survivor, and estimates 6 quota units per fetched channel |
| Cli.DeduplicateHandles | execution/main.py:46-65 | the command line's loop, which seeds `seen` with the primary's form, returns the same list as the pipeline's |
| Cli.MainCommand | execution/main.py:75-135 | the command line prints the lines of the first failing check in the same order as the pipeline and exits, or completes with the run's raw data and summary |
| Cli.FetchAll | execution/main.py:100-143 | the fetch part of `main` gives the outcome that the run specification defines, including the quota estimate of line 211 |
| SlidesRegistry.CompetitorBaseIds | execution/slides_report.py:36-40 | the five base ids of the competitor slide, as listed |
| SlidesRegistry.CompetitorIdsDistinct | execution/slides_report.py:33-47 | the competitor registry has 46 entries, no two alike |
| SlidesRegistry.CompetitorElementIds | execution/slides_report.py:33-47 | the loops build the registry: 46 pairwise-distinct ids |
| SlidesRegistry.IdeaBaseIds | execution/slides_report.py:52-58 | the fifteen base ids of the idea slide, as listed |
| SlidesRegistry.IdeaIdsDistinct | execution/slides_report.py:50-63 | the idea registry has 24 entries, no two alike |
| SlidesRegistry.IdeaElementIds | execution/slides_report.py:50-63 | the loops build the registry: 24 pairwise-distinct ids |
| SlidesRegistry.BuildObjectIdsMap | execution/slides_report.py:66-71 | the keys are exactly the page id and the element ids, each mapped to `key + "_" + suffix` |
| SlidesRegistry.ObjectIdsMapCorrect | execution/slides_report.py:66-71 | the same key set and renaming, for the map the loop specifies |
| SlidesRegistry.ObjectIdsMapInjective | execution/slides_report.py:66-71 | renaming with one suffix never sends two ids to the same new id |
| SlidesRegistry.MapIdRenames | execution/slides_report.py:140-147 | with a slide's map, a page or element id is renamed and any other id is left alone; without a map every id stays as it is |
| SlidesText.GroupedDigits | execution/slides_report.py:77-81 | removing the commas from `f"{n:,}"` leaves the decimal digits of `n` |
| SlidesText.GroupedShape | execution/slides_report.py:77-81 | every group after the first has three digits, the first has one to three, and commas stand exactly between groups |
| SlidesText.FmtNumberValue | execution/slides_report.py:77-81 | the digits of a formatted count read back as the count |
| SlidesText.FmtNumberExamples | execution/slides_report.py:77-81 | 1234 formats as "1,234" and -1000 as "-1,000" |
| SlidesText.TruncateCorrect | execution/slides_report.py:98-104 | for a limit of at least 3: "" exactly for empty text; text within the limit is unchanged; longer text becomes its first `limit - 3` characters and "...", exactly `limit` long |
| SlidesText.TruncateIdempotent | execution/slides_report.py:98-104 | truncating twice with the same limit is truncating once |
| SlidesText.ReplaceShapeTextShape | execution/slides_report.py:150-177 | one delete of the mapped shape; for a non-empty text, an insert at 0 and a style over all the text in the given colour, size and weight, in the body font unless another is named |
| SlidesText.FillColoredBullets | execution/slides_report.py:180-233 | the loop advancing `pos` past each bullet builds the requests `BulletRequests` specifies |
| SlidesText.JoinOffset | execution/slides_report.py:190 | bullet `i` of the joined text starts at the running offset of the loop |
| SlidesText.ColoredBulletsCorrect | execution/slides_report.py:187-231 | at most three bullets (one placeholder for no items); after delete, insert and base style come `min(bullets, colours)` marker styles, the k-th in colour k over a one-character range holding a `•` |
| SlidesText.TopPerformerRanges | execution/slides_report.py:352-391 | the name range holds exactly the name and the note range exactly the note; the ranges are disjoint and cover the text except the single newline |
| SlidesFallback.FirstRankCorrect | execution/slides_report.py:469-477 | a position is found exactly when the name occurs; it is the first occurrence, counted from 1 |
| SlidesFallback.PrimaryRanked | execution/slides_report.py:469-477 | for computed analytics, the channel is always found in the views and engagement rankings |
| SlidesFallback.OverviewParts | execution/slides_report.py:479-498 | the overview has two to four sentences |
| SlidesFallback.OverviewRanked | execution/slides_report.py:479-500 | a channel ranked in both lists gets the opening sentence, its two positions in one sentence, the top performer, and the highest outlier video when there is one |
| SlidesFallback.OverviewOfRun | execution/slides_report.py:458-500 | for computed analytics the channel is always ranked, so the overview always reads that way |
| SlidesFallback.OverviewUnranked | execution/slides_report.py:482-489 | for a channel missing from the views ranking, the engagement clause is appended to the opening sentence |
| SlidesFallback.LeaderNames | execution/slides_report.py:524 | the set of channel names of the given videos |
| SlidesFallback.TrendsCorrect | execution/slides_report.py:503-530 | one bullet per available fact; the outlier bullet says one channel dominates exactly when the top five videos share one channel, and otherwise lists up to three distinct channels of those videos |
| SlidesFallback.OutlierTrendNames | execution/slides_report.py:524-528 | the channel set has one element exactly when all the videos share a channel, and any prefix of its iteration names distinct channels among them |
| SlidesFallback.GapBullet | execution/slides_report.py:541-555 | a gap test contributes a bullet exactly when some competitor passes it |
| SlidesFallback.GapsCount | execution/slides_report.py:533-560 | one to three bullets, one per kind of gap found; the no-gap bullet is given exactly when none is found |
| SlidesFallback.NoGapsIff | execution/slides_report.py:539-558 | no gap is found exactly when no competitor exceeds 1.5 times the upload frequency, 1.2 times the engagement or 1.5 times the views of the channel |
| SlidesFallback.GapFilters | execution/slides_report.py:539-552 | each gap list holds exactly the competitors that pass its test |
| SlidesFallback.GapNamesQualify | execution/slides_report.py:542-554 | every name a gap bullet gives belongs to a competitor that passes its test |
| SlidesFallback.FindChannel | execution/slides_report.py:568-569 | the first channel with the given name: the result sits at some position with no earlier channel of that name; none exactly when no channel has it |
| SlidesFallback.AverageViewsBounds | execution/slides_report.py:574-576 | the average is 0 for no videos and otherwise the floor of views per video |
| SlidesFallback.NoteOfRun | execution/slides_report.py:563-578 | for computed analytics the top performer is a channel of the cohort, so the note is never empty |
| SlidesFallback.BuildFallbackIdeas | execution/slides_report.py:581-614 | the two loops build the ideas `FallbackIdeas` specifies |
| SlidesFallback.FallbackIdeasCorrect | execution/slides_report.py:586-614 | exactly five ideas: the i-th drawn from the i-th leaderboard video while one of the first five exists, the rest numbered placeholders; each has five title variations and two hooks |
| SlidesFallback.IdeaTitleBounded | execution/slides_report.py:588 | an idea's title keeps at most 45 characters of the video title, and all of a title that fits |
| SlidesFallback.TakeawaysCorrect | execution/slides_report.py:617-649 | two takeaways, or three when the leaderboard has a video; the rank sentence first and the fixed insights prompt last; the stated rank never exceeds the ranking's length, and names the channel's own position when it is ranked |
| SlidesFallback.TakeawaysOfRun | execution/slides_report.py:626-634 | for computed analytics the channel is ranked, between 1 and the cohort size, out of every channel of the cohort |

## Left out

- The network is not modelled: the YouTube Data API, the Shorts HEAD request, Google Drive and Slides API calls, and OAuth. Each call the core depends on is a function parameter.
- Not part of this model: `get_recent_videos` (pagination, `datetime` publish cutoffs), the composition in `fetch_channel_data`, and `_retry`/`_retry_api` with their sleeps. They are timing- and network-driven.
- Not part of this model: execution/auth.py, execution/ai_insights.py, execution/slides_template.py and app.py. They are credentials, prompt text, slide layout geometry in floating point, and UI.
- Not part of this model: `generate_report` and the slide-filling functions beyond the text helpers and the top-performer box. That includes the dated title slide, the insights branch of the comparative slide, JSON and `.env` file I/O, the pipeline's progress events and `main`'s informational prints. They are I/O, or Slides layout without logic of its own.
- Rounding: Python floats are modelled as exact reals. `Rounding.Round2`, `Rounding.Round1` and `Rounding.Fixed2` round half to even on that real. The binary-float representation error of `round` and of `:.2f` is not modelled. The gap thresholds (`* 1.5`, `* 1.2`) are compared exactly as well.
- Characters: lowercasing covers ASCII letters only, and `\d` means the ASCII digits. Python's `int()` is modelled only for the subscriber count, on plain digit strings; a string it would reject is `YouTubeApi.ResolveError.BadSubscriberCount`, which `int()` would raise as an exception. The view, like and comment counts (execution/youtube_api.py:108, 207-209) arrive already as optional naturals, so their `int()` conversions are not modelled.
- Colours and fonts are named constants, not RGB dictionaries or font names.
- SlidesText.TruncateCorrect: states nothing for limits below 3. In that case Python's negative slice is modelled (`SlidesText.PyPrefix`), but no property is stated about it.
- SlidesFallback.TrendsCorrect: the order in which a Python `set` yields the outlier channels is hash-dependent. It is a parameter, which must list the set exactly once.
- The dictionary defaults `"Your channel"` and `"N/A"` in the fallback builders are not modelled. Every modelled analytics value carries the channel name and the top performer, so those defaults cannot be reached. A top performer of `None` prints as "None", as Python's f-string does.

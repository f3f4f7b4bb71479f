/**
 * The analytics engine: engagement rates, median-based outlier scores, per-channel
 * summaries and the cross-channel comparison (execution/analytics.py).
 * Counts are natural numbers; rates, averages and scores are reals.
 */
module Analytics {
  import opened Wrappers
  import opened Seqs
  import opened Sorting
  import opened Rounding

  /** One video as the fetch layer records it. */
  datatype Video = Video(
    videoId: string,
    title: string,
    publishedAt: string,
    views: nat,
    likes: nat,
    comments: nat,
    durationSeconds: nat)

  /** A copy of a period video with the two derived fields added. */
  datatype ScoredVideo = ScoredVideo(video: Video, engagement: real, outlierScore: real)

  /** The lean record kept in a summary's top-videos list. */
  datatype TopVideo = TopVideo(title: string, videoId: string, views: nat, engagement: real, outlierScore: real)

  /** The role the orchestrator assigns: the primary channel is "channel", the others "competitor". */
  datatype Role = ChannelRole | CompetitorRole

  /** The raw data fetched for one channel. */
  datatype ChannelData = ChannelData(
    channelId: string,
    channelName: string,
    subscriberCount: Option<nat>,
    role: Option<Role>,
    periodVideos: seq<Video>,
    baselineVideos: seq<Video>)

  datatype ChannelSummary = ChannelSummary(
    channelId: string,
    channelName: string,
    role: Role,
    subscriberCount: Option<nat>,
    totalPeriodViews: nat,
    videoCount: nat,
    avgEngagement: real,
    avgDuration: real,
    uploadFrequency: real,
    topVideos: seq<TopVideo>,
    periodVideos: seq<ScoredVideo>)

  datatype ViewsEntry = ViewsEntry(channelName: string, totalPeriodViews: nat)
  datatype EngagementEntry = EngagementEntry(channelName: string, avgEngagement: real)
  datatype OutlierEntry = OutlierEntry(channelName: string, highestOutlierScore: real)
  datatype LeaderboardEntry = LeaderboardEntry(
    channelName: string,
    title: string,
    videoId: string,
    views: nat,
    outlierScore: real,
    engagement: real)

  datatype Comparative = Comparative(
    viewsRanking: seq<ViewsEntry>,
    engagementRanking: seq<EngagementEntry>,
    outlierRanking: seq<OutlierEntry>,
    topPerformer: Option<string>,
    leaderboard: seq<LeaderboardEntry>)

  /** The pipeline's output: window length (absent means 60), primary channel, competitors. */
  datatype RawData = RawData(days: Option<int>, channel: ChannelData, competitors: seq<ChannelData>)

  datatype AnalyticsResult = AnalyticsResult(
    channel: ChannelSummary,
    competitors: seq<ChannelSummary>,
    comparative: Comparative)

  const DefaultDays := 60
  const TopVideosCount := 5
  const LeaderboardSize := 10

  // ---------------------------------------------------------------------------
  // Engagement and outlier scores
  // ---------------------------------------------------------------------------

  /** `(likes + comments) / views * 100`, or 0 for a video nobody viewed. */
  function Engagement(v: Video): (e: real)
    ensures v.views == 0 ==> e == 0.0
    ensures v.views > 0 ==> e * (v.views as real) == (v.likes + v.comments) as real * 100.0
    ensures e >= 0.0
  {
    if v.views == 0 then 0.0
    else (v.likes + v.comments) as real / v.views as real * 100.0
  }

  function ViewsOf(v: Video): nat { v.views }

  /** The middle element of a non-empty sequence, or the mean of the two middle elements. */
  function Middle(s: seq<int>): real
    requires |s| > 0
  {
    var n := |s|;
    if n % 2 == 1 then s[n / 2] as real else (s[n / 2 - 1] + s[n / 2]) as real / 2.0
  }

  /** `statistics.median`: the middle of the sorted data. */
  function Median(xs: seq<int>): real
    requires |xs| > 0
  {
    SortAscCorrect(xs);
    Middle(SortAsc(xs))
  }

  /** The median depends only on the multiset of values, not on their order. */
  lemma MedianOrderInsensitive(xs: seq<int>, ys: seq<int>)
    requires |xs| > 0 && multiset(xs) == multiset(ys)
    ensures |ys| > 0 && Median(xs) == Median(ys)
  {
    assert |ys| == |multiset(ys)| == |xs|;
    SortAscCorrect(xs);
    SortAscCorrect(ys);
    SortedAscUnique(SortAsc(xs), SortAsc(ys));
  }

  lemma MiddleBounds(s: seq<int>)
    requires |s| > 0 && SortedAsc(s)
    ensures s[0] as real <= Middle(s) <= s[|s| - 1] as real
  {
    var n := |s|;
    if n % 2 == 0 {
      assert s[0] <= s[n / 2 - 1] <= s[n / 2] <= s[n - 1];
    } else {
      assert s[0] <= s[n / 2] <= s[n - 1];
    }
  }

  /** The ends of the sorted data are the smallest and the largest value of the data. */
  lemma SortedEnds(xs: seq<int>, s: seq<int>)
    requires |xs| > 0 && SortedAsc(s) && multiset(s) == multiset(xs)
    ensures |s| == |xs|
    ensures exists lo, hi :: 0 <= lo < |xs| && 0 <= hi < |xs| && xs[lo] == s[0] && xs[hi] == s[|s| - 1]
    ensures forall i :: 0 <= i < |xs| ==> s[0] <= xs[i] <= s[|s| - 1]
  {
    assert |s| == |multiset(s)| == |xs|;
    var n := |s|;
    assert s[0] in multiset(xs) && s[n - 1] in multiset(xs);
    forall i | 0 <= i < |xs| ensures s[0] <= xs[i] <= s[n - 1] {
      assert xs[i] in multiset(s);
      var k :| 0 <= k < n && s[k] == xs[i];
    }
  }

  /** The median lies between the smallest and the largest value. */
  lemma MedianBounds(xs: seq<int>)
    requires |xs| > 0
    ensures exists lo :: 0 <= lo < |xs| && xs[lo] as real <= Median(xs)
              && forall i :: 0 <= i < |xs| ==> xs[lo] <= xs[i]
    ensures exists hi :: 0 <= hi < |xs| && Median(xs) <= xs[hi] as real
              && forall i :: 0 <= i < |xs| ==> xs[i] <= xs[hi]
  {
    SortAscCorrect(xs);
    var s := SortAsc(xs);
    var m := Median(xs);
    assert m == Middle(s);
    MiddleBounds(s);
    SortedEnds(xs, s);
    var lo, hi :| 0 <= lo < |xs| && 0 <= hi < |xs| && xs[lo] == s[0] && xs[hi] == s[|s| - 1];
    assert xs[lo] as real <= m && forall i :: 0 <= i < |xs| ==> xs[lo] <= xs[i];
    assert m <= xs[hi] as real && forall i :: 0 <= i < |xs| ==> xs[i] <= xs[hi];
  }

  /** The even-count example: the median of 100, 200, 300, 400 is 250. */
  lemma MedianEvenExample()
    ensures Median([100, 200, 300, 400]) == 250.0
  {
    var xs: seq<int> := [100, 200, 300, 400];
    assert xs[1..] == [200, 300, 400] && xs[2..] == [300, 400] && xs[3..] == [400];
    assert SortAsc([400]) == [400] by { assert [400][1..] == []; }
    assert SortAsc([300, 400]) == [300, 400] by { assert [300, 400][1..] == [400]; }
    assert SortAsc([200, 300, 400]) == [200, 300, 400] by { assert [200, 300, 400][1..] == [300, 400]; }
    assert SortAsc(xs) == xs;
  }

  /** The median of the baseline views, or 0 for an empty baseline. */
  function BaselineMedian(baseline: seq<Video>): real {
    if baseline == [] then 0.0 else Median(Map(ViewsOf, baseline))
  }

  /** `views / median` rounded to two decimals, or 0 when the median is not positive. */
  function OutlierScore(v: Video, median: real): real {
    if median > 0.0 then Round2(v.views as real / median) else 0.0
  }

  function ScoreVideo(v: Video, median: real): ScoredVideo {
    ScoredVideo(v, Engagement(v), OutlierScore(v, median))
  }

  /** The scored copies of the period videos, one per input, in input order. */
  function OutlierScores(period: seq<Video>, baseline: seq<Video>): (r: seq<ScoredVideo>)
    ensures |r| == |period|
    ensures forall i :: 0 <= i < |period| ==> r[i].video == period[i] && r[i].engagement == Engagement(period[i])
    ensures BaselineMedian(baseline) <= 0.0 ==> forall i :: 0 <= i < |r| ==> r[i].outlierScore == 0.0
    ensures BaselineMedian(baseline) > 0.0 ==> forall i :: 0 <= i < |r| ==>
              r[i].outlierScore == Round2(period[i].views as real / BaselineMedian(baseline))
  {
    var m := BaselineMedian(baseline);
    seq(|period|, i requires 0 <= i < |period| => ScoreVideo(period[i], m))
  }

  /**
   * `calculate_outlier_scores`: each period video copied with its engagement and its outlier
   * score against the baseline median; the scores are zero when that median is zero.
   */
  method CalculateOutlierScores(period: seq<Video>, baseline: seq<Video>) returns (scored: seq<ScoredVideo>)
    ensures |scored| == |period|
    ensures forall i :: 0 <= i < |period| ==>
              scored[i].video == period[i] && scored[i].engagement == Engagement(period[i])
    ensures BaselineMedian(baseline) <= 0.0 ==> forall i :: 0 <= i < |scored| ==> scored[i].outlierScore == 0.0
    ensures BaselineMedian(baseline) > 0.0 ==> forall i :: 0 <= i < |scored| ==>
              scored[i].outlierScore == Round2(period[i].views as real / BaselineMedian(baseline))
    ensures scored == OutlierScores(period, baseline)
  {
    var medianViews := if baseline == [] then 0.0 else Median(Map(ViewsOf, baseline));
    scored := [];
    var i := 0;
    while i < |period|
      invariant 0 <= i <= |period|
      invariant scored == OutlierScores(period[..i], baseline)
    {
      var video := period[i];
      var score := if medianViews > 0.0 then Round2(video.views as real / medianViews) else 0.0;
      scored := scored + [ScoredVideo(video, Engagement(video), score)];
      i := i + 1;
    }
    assert period[..i] == period;
  }

  /** Outlier scores are never negative: views and the median are both non-negative. */
  lemma OutlierScoresNonNegative(period: seq<Video>, baseline: seq<Video>)
    ensures forall i :: 0 <= i < |period| ==> OutlierScores(period, baseline)[i].outlierScore >= 0.0
  {
    var m := BaselineMedian(baseline);
    forall i | 0 <= i < |period| ensures OutlierScores(period, baseline)[i].outlierScore >= 0.0 {
      if m > 0.0 {
        Round2Close(period[i].views as real / m);
      }
    }
  }

  /** The even-count example: against baseline views 100..400 a 500-view video scores 2.0. */
  lemma OutlierScoreExample(v: Video)
    requires v.views == 500
    ensures OutlierScore(v, Median([100, 200, 300, 400])) == 2.0
  {
    MedianEvenExample();
    assert 500 as real / 250.0 == 200 as real / 100.0;
    Round2Exact(200);
  }

  // ---------------------------------------------------------------------------
  // Channel summaries
  // ---------------------------------------------------------------------------

  function OutlierKey(v: ScoredVideo): real { v.outlierScore }

  function TopKey(t: TopVideo): real { t.outlierScore }

  function ProjectTop(v: ScoredVideo): TopVideo {
    TopVideo(v.video.title, v.video.videoId, v.video.views, Round2(v.engagement), v.outlierScore)
  }

  /** `rank_top_videos`: the projections of the `n` highest-scoring videos. */
  function RankTopVideos(videos: seq<ScoredVideo>, n: nat): seq<TopVideo> {
    Map(ProjectTop, TopDesc(videos, OutlierKey, n))
  }

  lemma TakeMap<A, B>(f: A -> B, s: seq<A>, n: nat)
    ensures Map(f, Take(s, n)) == Take(Map(f, s), n)
  {
  }

  /** RankTopVideos is the top `n` of the projected videos, in the stable descending order. */
  lemma RankTopVideosIsTop(videos: seq<ScoredVideo>, n: nat)
    ensures RankTopVideos(videos, n) == TopDesc(Map(ProjectTop, videos), TopKey, n)
  {
    SortDescMap(ProjectTop, videos, OutlierKey, TopKey);
    TakeMap(ProjectTop, SortDesc(videos, OutlierKey), n);
  }

  /**
   * `rank_top_videos` returns `min(n, len(videos))` projections of input videos, by
   * non-increasing outlier score, no left-out video scoring above a kept one, and equal
   * scores in input order.
   */
  lemma RankTopVideosCorrect(videos: seq<ScoredVideo>, n: nat)
    ensures var r := RankTopVideos(videos, n); var ps := Map(ProjectTop, videos);
      && |r| == Min(n, |videos|)
      && SortedDesc(r, TopKey)
      && multiset(r) <= multiset(ps)
      && (forall x, y :: x in multiset(ps) - multiset(r) && y in r ==> TopKey(x) <= TopKey(y))
      && (forall k :: WithKey(r, TopKey, k) <= WithKey(ps, TopKey, k))
  {
    RankTopVideosIsTop(videos, n);
    var ps := Map(ProjectTop, videos);
    TopDescShape(ps, TopKey, n);
    TopDescIsTop(ps, TopKey, n);
    TopDescStable(ps, TopKey, n);
  }

  function SumViews(vs: seq<ScoredVideo>): nat
    decreases |vs|
  {
    if vs == [] then 0 else vs[0].video.views + SumViews(vs[1..])
  }

  function SumVideoViews(vs: seq<Video>): nat
    decreases |vs|
  {
    if vs == [] then 0 else vs[0].views + SumVideoViews(vs[1..])
  }

  function SumEngagement(vs: seq<ScoredVideo>): real
    decreases |vs|
  {
    if vs == [] then 0.0 else vs[0].engagement + SumEngagement(vs[1..])
  }

  function SumDuration(vs: seq<ScoredVideo>): nat
    decreases |vs|
  {
    if vs == [] then 0 else vs[0].video.durationSeconds + SumDuration(vs[1..])
  }

  /** Videos per week over a `days`-long window, with the week count floored at one. */
  function UploadFrequency(videoCount: nat, days: int): real {
    var weeks := if days as real / 7.0 >= 1.0 then days as real / 7.0 else 1.0;
    Round2(videoCount as real / weeks)
  }

  /** Windows of up to a week count as one week: the frequency is the video count itself. */
  lemma UploadFrequencyFloor(videoCount: nat, days: int)
    requires days <= 7
    ensures UploadFrequency(videoCount, days) == videoCount as real
  {
    var q := days as real / 7.0;
    assert q <= 1.0;
    assert (if q >= 1.0 then q else 1.0) == 1.0;
    assert videoCount as real / 1.0 == videoCount as real;
    Round2Exact(videoCount);
  }

  /** Longer windows divide by `days / 7`. */
  lemma UploadFrequencyWeeks(videoCount: nat, days: int)
    requires days >= 7
    ensures UploadFrequency(videoCount, days) == Round2(videoCount as real * 7.0 / days as real)
  {
    var w := days as real / 7.0;
    assert videoCount as real / w == videoCount as real * 7.0 / days as real;
  }

  /** The sub-week example: two videos in a three-day window make 2.0 per week. */
  lemma UploadFrequencyExample()
    ensures UploadFrequency(2, 3) == 2.0
  {
    UploadFrequencyFloor(2, 3);
  }

  /** `build_channel_summary` */
  function BuildChannelSummary(data: ChannelData, days: int): ChannelSummary {
    var period := OutlierScores(data.periodVideos, data.baselineVideos);
    var n := |period|;
    var avgEngagement := if n > 0 then Round2(SumEngagement(period) / n as real) else 0.0;
    var avgDuration := if n > 0 then Round1(SumDuration(period) as real / n as real) else 0.0;
    ChannelSummary(
      data.channelId, data.channelName, data.role.GetOr(CompetitorRole), data.subscriberCount,
      SumViews(period), n, avgEngagement, avgDuration, UploadFrequency(n, days),
      RankTopVideos(period, TopVideosCount), period)
  }

  lemma {:induction false} SumViewsOfScores(period: seq<Video>, baseline: seq<Video>)
    ensures SumViews(OutlierScores(period, baseline)) == SumVideoViews(period)
    decreases |period|
  {
    if period != [] {
      SumViewsOfScores(period[1..], baseline);
      assert OutlierScores(period, baseline)[1..] == OutlierScores(period[1..], baseline);
    }
  }

  /** Total engagement of a list of videos. */
  function SumVideoEngagement(vs: seq<Video>): real
    decreases |vs|
  {
    if vs == [] then 0.0 else Engagement(vs[0]) + SumVideoEngagement(vs[1..])
  }

  /** Total duration, in seconds, of a list of videos. */
  function SumVideoDuration(vs: seq<Video>): nat
    decreases |vs|
  {
    if vs == [] then 0 else vs[0].durationSeconds + SumVideoDuration(vs[1..])
  }

  lemma {:induction false} SumsOfScores(period: seq<Video>, baseline: seq<Video>)
    ensures SumEngagement(OutlierScores(period, baseline)) == SumVideoEngagement(period)
    ensures SumDuration(OutlierScores(period, baseline)) == SumVideoDuration(period)
    decreases |period|
  {
    if period != [] {
      SumsOfScores(period[1..], baseline);
      assert OutlierScores(period, baseline)[1..] == OutlierScores(period[1..], baseline);
    }
  }

  /**
   * The summary's identity, totals and means: id, name and subscribers are copied, the
   * role defaults to competitor, total views is the sum over the period videos and the
   * count is their number; the mean engagement (two decimals) and mean duration (one
   * decimal) are over the period videos, and zero for an empty period.
   */
  lemma ChannelSummaryTotals(data: ChannelData, days: int)
    ensures var s := BuildChannelSummary(data, days); var p := data.periodVideos; var n := |p|;
      && s.channelId == data.channelId && s.channelName == data.channelName
      && s.subscriberCount == data.subscriberCount
      && s.role == (if data.role == Some(ChannelRole) then ChannelRole else CompetitorRole)
      && s.totalPeriodViews == SumVideoViews(p)
      && s.videoCount == n
      && (n == 0 ==> s.avgEngagement == 0.0 && s.avgDuration == 0.0)
      && (n > 0 ==> s.avgEngagement == Round2(SumVideoEngagement(p) / n as real))
      && (n > 0 ==> s.avgDuration == Round1(SumVideoDuration(p) as real / n as real))
  {
    SumViewsOfScores(data.periodVideos, data.baselineVideos);
    SumsOfScores(data.periodVideos, data.baselineVideos);
  }

  /**
   * The upload cadence is the video count per week of the window, the week count floored
   * at one: for a window of up to a week it is the video count itself.
   */
  lemma ChannelSummaryFrequency(data: ChannelData, days: int)
    ensures var s := BuildChannelSummary(data, days); var n := |data.periodVideos|;
      && s.uploadFrequency == UploadFrequency(n, days)
      && (days <= 7 ==> s.uploadFrequency == n as real)
      && (days >= 7 ==> s.uploadFrequency == Round2(n as real * 7.0 / days as real))
  {
    var n := |data.periodVideos|;
    if days <= 7 {
      UploadFrequencyFloor(n, days);
    }
    if days >= 7 {
      UploadFrequencyWeeks(n, days);
    }
  }

  /**
   * The summary's period videos are the scored copies of its period videos, and its top
   * videos are `rank_top_videos` of them: at most five projections of scored period videos,
   * best first, none left out scoring above one kept, ties in period order.
   */
  lemma ChannelSummaryTopVideos(data: ChannelData, days: int)
    ensures var s := BuildChannelSummary(data, days); var ps := Map(ProjectTop, s.periodVideos);
      && s.periodVideos == OutlierScores(data.periodVideos, data.baselineVideos)
      && s.topVideos == RankTopVideos(s.periodVideos, 5)
      && |s.topVideos| == Min(5, |data.periodVideos|)
      && SortedDesc(s.topVideos, TopKey)
      && multiset(s.topVideos) <= multiset(ps)
      && (forall x, y :: x in multiset(ps) - multiset(s.topVideos) && y in s.topVideos ==> TopKey(x) <= TopKey(y))
      && (forall k :: WithKey(s.topVideos, TopKey, k) <= WithKey(ps, TopKey, k))
  {
    var s := BuildChannelSummary(data, days);
    RankTopVideosCorrect(s.periodVideos, TopVideosCount);
  }

  /** The eight-video example: a summary of eight period videos keeps exactly five. */
  lemma TopFiveOfEight(data: ChannelData, days: int)
    requires |data.periodVideos| == 8
    ensures |BuildChannelSummary(data, days).topVideos| == 5
  {
    ChannelSummaryTopVideos(data, days);
  }

  // ---------------------------------------------------------------------------
  // Comparative analytics
  // ---------------------------------------------------------------------------

  /** The highest outlier score of a channel: its first top video's, or 0 without videos. */
  function BestOutlier(s: ChannelSummary): real {
    if s.topVideos != [] then s.topVideos[0].outlierScore else 0.0
  }

  /** Reference maximum of the outlier scores, 0 for no videos. */
  function MaxOutlier(vs: seq<ScoredVideo>): real
    decreases |vs|
  {
    if vs == [] then 0.0
    else if |vs| == 1 then vs[0].outlierScore
    else var m := MaxOutlier(vs[1..]); if vs[0].outlierScore >= m then vs[0].outlierScore else m
  }

  lemma {:induction false} MaxOutlierIsMax(vs: seq<ScoredVideo>)
    requires vs != []
    ensures exists i :: 0 <= i < |vs| && vs[i].outlierScore == MaxOutlier(vs)
    ensures forall i :: 0 <= i < |vs| ==> vs[i].outlierScore <= MaxOutlier(vs)
    decreases |vs|
  {
    if |vs| > 1 {
      MaxOutlierIsMax(vs[1..]);
      var i :| 0 <= i < |vs[1..]| && vs[1..][i].outlierScore == MaxOutlier(vs[1..]);
      if vs[0].outlierScore < MaxOutlier(vs[1..]) {
        assert vs[i + 1].outlierScore == MaxOutlier(vs);
      } else {
        assert vs[0].outlierScore == MaxOutlier(vs);
      }
      forall j | 0 < j < |vs| ensures vs[j].outlierScore <= MaxOutlier(vs) {
        assert vs[j] == vs[1..][j - 1];
      }
    } else {
      assert vs[0].outlierScore == MaxOutlier(vs);
    }
  }

  /** The first of the ranked top videos carries the maximum outlier score of all of them. */
  lemma RankTopHeadIsMax(vs: seq<ScoredVideo>, n: nat)
    requires n > 0
    ensures var r := RankTopVideos(vs, n); (if r != [] then r[0].outlierScore else 0.0) == MaxOutlier(vs)
  {
    if vs != [] {
      SortDescHead(vs, OutlierKey);
      SortDescCorrect(vs, OutlierKey);
      var h := SortDesc(vs, OutlierKey)[0];
      assert TopDesc(vs, OutlierKey, n)[0] == h;
      assert RankTopVideos(vs, n)[0] == ProjectTop(h);
      MaxOutlierIsMax(vs);
      var i :| 0 <= i < |vs| && vs[i].outlierScore == MaxOutlier(vs);
      assert vs[i] in vs;
      var k :| 0 <= k < |vs| && vs[k] == h;
    }
  }

  /**
   * For a summary the engine built, the channel's highest outlier score (read off its first
   * top video) is the maximum outlier score of its period videos, or 0 if it has none.
   */
  lemma BestOutlierIsMax(data: ChannelData, days: int)
    ensures var s := BuildChannelSummary(data, days); BestOutlier(s) == MaxOutlier(s.periodVideos)
  {
    var s := BuildChannelSummary(data, days);
    assert s.topVideos == RankTopVideos(s.periodVideos, TopVideosCount);
    RankTopHeadIsMax(s.periodVideos, TopVideosCount);
  }

  function ViewsKey(s: ChannelSummary): real { s.totalPeriodViews as real }

  function EngagementKey(s: ChannelSummary): real { s.avgEngagement }

  function BestOutlierKey(s: ChannelSummary): real { BestOutlier(s) }

  function LeaderKey(e: LeaderboardEntry): real { e.outlierScore }

  function ViewsEntryOf(s: ChannelSummary): ViewsEntry { ViewsEntry(s.channelName, s.totalPeriodViews) }

  function EngagementEntryOf(s: ChannelSummary): EngagementEntry { EngagementEntry(s.channelName, s.avgEngagement) }

  function OutlierEntryOf(s: ChannelSummary): OutlierEntry { OutlierEntry(s.channelName, BestOutlier(s)) }

  function ViewsEntryKey(e: ViewsEntry): real { e.totalPeriodViews as real }

  function EngagementEntryKey(e: EngagementEntry): real { e.avgEngagement }

  function OutlierEntryKey(e: OutlierEntry): real { e.highestOutlierScore }

  /** One pooled leaderboard record: a period video tagged with its channel's name. */
  function TagVideo(name: string, v: ScoredVideo): LeaderboardEntry {
    LeaderboardEntry(name, v.video.title, v.video.videoId, v.video.views, v.outlierScore, Round2(v.engagement))
  }

  function Tagged(name: string, vs: seq<ScoredVideo>): (r: seq<LeaderboardEntry>)
    ensures |r| == |vs|
    ensures forall i :: 0 <= i < |vs| ==> r[i] == TagVideo(name, vs[i])
  {
    seq(|vs|, i requires 0 <= i < |vs| => TagVideo(name, vs[i]))
  }

  /** Every period video of every summary, in summary order, tagged with the channel name. */
  function Pooled(all: seq<ChannelSummary>): seq<LeaderboardEntry>
    decreases |all|
  {
    if all == [] then [] else Tagged(all[0].channelName, all[0].periodVideos) + Pooled(all[1..])
  }

  lemma {:induction false} PooledConcat(a: seq<ChannelSummary>, b: seq<ChannelSummary>)
    ensures Pooled(a + b) == Pooled(a) + Pooled(b)
    decreases |a|
  {
    if a == [] {
      assert a + b == b;
    } else {
      assert (a + b)[1..] == a[1..] + b;
      PooledConcat(a[1..], b);
    }
  }

  function TotalPeriodVideos(all: seq<ChannelSummary>): nat
    decreases |all|
  {
    if all == [] then 0 else |all[0].periodVideos| + TotalPeriodVideos(all[1..])
  }

  /** The pool holds one record per period video, each the tagged copy of one of them. */
  lemma {:induction false} PooledContents(all: seq<ChannelSummary>)
    ensures |Pooled(all)| == TotalPeriodVideos(all)
    ensures forall e :: e in Pooled(all) ==>
              exists c, v :: c in all && v in c.periodVideos && e == TagVideo(c.channelName, v)
    decreases |all|
  {
    if all != [] {
      PooledContents(all[1..]);
      var t := Tagged(all[0].channelName, all[0].periodVideos);
      forall e | e in Pooled(all)
        ensures exists c, v :: c in all && v in c.periodVideos && e == TagVideo(c.channelName, v)
      {
        if e in t {
          var i :| 0 <= i < |t| && t[i] == e;
          assert all[0] in all && all[0].periodVideos[i] in all[0].periodVideos;
        } else {
          assert e in Pooled(all[1..]);
          var c, v :| c in all[1..] && v in c.periodVideos && e == TagVideo(c.channelName, v);
          assert c in all;
        }
      }
    }
  }

  /** `build_comparative_data`, as a value. */
  function ComparativeOf(primary: ChannelSummary, competitors: seq<ChannelSummary>): Comparative {
    var all := [primary] + competitors;
    var byViews := SortDesc(all, ViewsKey);
    Comparative(
      Map(ViewsEntryOf, byViews),
      Map(EngagementEntryOf, SortDesc(all, EngagementKey)),
      Map(OutlierEntryOf, SortDesc(all, BestOutlierKey)),
      if byViews != [] then Some(byViews[0].channelName) else None,
      TopDesc(Pooled(all), LeaderKey, LeaderboardSize))
  }

  /** The nested loops that collect every summary's period videos into one list. */
  method PoolVideos(all: seq<ChannelSummary>) returns (allVideos: seq<LeaderboardEntry>)
    ensures allVideos == Pooled(all)
  {
    allVideos := [];
    var i := 0;
    while i < |all|
      invariant 0 <= i <= |all|
      invariant allVideos == Pooled(all[..i])
    {
      var s := all[i];
      var j := 0;
      while j < |s.periodVideos|
        invariant 0 <= j <= |s.periodVideos|
        invariant allVideos == Pooled(all[..i]) + Tagged(s.channelName, s.periodVideos[..j])
      {
        allVideos := allVideos + [TagVideo(s.channelName, s.periodVideos[j])];
        j := j + 1;
      }
      assert s.periodVideos[..j] == s.periodVideos;
      assert Pooled([s]) == Tagged(s.channelName, s.periodVideos) + Pooled([]);
      PooledConcat(all[..i], [s]);
      assert all[..i + 1] == all[..i] + [s];
      i := i + 1;
    }
    assert all[..i] == all;
  }

  /** `build_comparative_data`: three rankings, the top performer and the leaderboard. */
  method BuildComparativeData(channelSummary: ChannelSummary, competitorSummaries: seq<ChannelSummary>)
    returns (r: Comparative)
    ensures r == ComparativeOf(channelSummary, competitorSummaries)
  {
    var allSummaries := [channelSummary] + competitorSummaries;
    var byViews := SortDesc(allSummaries, ViewsKey);
    var viewsRanking := Map(ViewsEntryOf, byViews);
    var engagementRanking := Map(EngagementEntryOf, SortDesc(allSummaries, EngagementKey));
    var outlierRanking := Map(OutlierEntryOf, SortDesc(allSummaries, BestOutlierKey));
    var topPerformer := if byViews != [] then Some(byViews[0].channelName) else None;
    var allVideos := PoolVideos(allSummaries);
    allVideos := SortDesc(allVideos, LeaderKey);
    var leaderboard := Take(allVideos, LeaderboardSize);
    r := Comparative(viewsRanking, engagementRanking, outlierRanking, topPerformer, leaderboard);
  }

  /**
   * The views ranking is the stable descending sort of the cohort's (name, views) entries:
   * one entry per channel, by non-increasing views, equal views in cohort order.
   */
  lemma ViewsRankingCorrect(primary: ChannelSummary, competitors: seq<ChannelSummary>)
    ensures var all := [primary] + competitors;
            var r := ComparativeOf(primary, competitors).viewsRanking;
      && r == SortDesc(Map(ViewsEntryOf, all), ViewsEntryKey)
      && |r| == |all|
      && multiset(r) == multiset(Map(ViewsEntryOf, all))
      && SortedDesc(r, ViewsEntryKey)
      && StableWrt(r, Map(ViewsEntryOf, all), ViewsEntryKey)
  {
    var all := [primary] + competitors;
    SortDescMap(ViewsEntryOf, all, ViewsKey, ViewsEntryKey);
    SortDescCorrect(Map(ViewsEntryOf, all), ViewsEntryKey);
  }

  /** The engagement ranking is the stable descending sort of the (name, engagement) entries. */
  lemma EngagementRankingCorrect(primary: ChannelSummary, competitors: seq<ChannelSummary>)
    ensures var all := [primary] + competitors;
            var r := ComparativeOf(primary, competitors).engagementRanking;
      && r == SortDesc(Map(EngagementEntryOf, all), EngagementEntryKey)
      && |r| == |all|
      && multiset(r) == multiset(Map(EngagementEntryOf, all))
      && SortedDesc(r, EngagementEntryKey)
      && StableWrt(r, Map(EngagementEntryOf, all), EngagementEntryKey)
  {
    var all := [primary] + competitors;
    SortDescMap(EngagementEntryOf, all, EngagementKey, EngagementEntryKey);
    SortDescCorrect(Map(EngagementEntryOf, all), EngagementEntryKey);
  }

  /** The outlier ranking is the stable descending sort of the (name, best score) entries. */
  lemma OutlierRankingCorrect(primary: ChannelSummary, competitors: seq<ChannelSummary>)
    ensures var all := [primary] + competitors;
            var r := ComparativeOf(primary, competitors).outlierRanking;
      && r == SortDesc(Map(OutlierEntryOf, all), OutlierEntryKey)
      && |r| == |all|
      && multiset(r) == multiset(Map(OutlierEntryOf, all))
      && SortedDesc(r, OutlierEntryKey)
      && StableWrt(r, Map(OutlierEntryOf, all), OutlierEntryKey)
  {
    var all := [primary] + competitors;
    SortDescMap(OutlierEntryOf, all, BestOutlierKey, OutlierEntryKey);
    SortDescCorrect(Map(OutlierEntryOf, all), OutlierEntryKey);
  }

  /**
   * The top performer is the name of the channel with the most period views; among channels
   * tied at the top, the one that comes first in the cohort (primary first).
   */
  lemma TopPerformerCorrect(primary: ChannelSummary, competitors: seq<ChannelSummary>)
    ensures var all := [primary] + competitors;
      exists k :: 0 <= k < |all|
        && ComparativeOf(primary, competitors).topPerformer == Some(all[k].channelName)
        && (forall j :: 0 <= j < |all| ==> all[j].totalPeriodViews <= all[k].totalPeriodViews)
        && (forall j :: 0 <= j < k ==> all[j].totalPeriodViews < all[k].totalPeriodViews)
  {
    var all := [primary] + competitors;
    var k := SortDescHeadIndex(all, ViewsKey);
    assert ComparativeOf(primary, competitors).topPerformer == Some(all[k].channelName);
  }

  /**
   * The leaderboard holds `min(10, pooled videos)` tagged period videos, by non-increasing
   * outlier score; no pooled video left out outscores one kept; ties keep pooling order.
   */
  lemma LeaderboardCorrect(primary: ChannelSummary, competitors: seq<ChannelSummary>)
    ensures var all := [primary] + competitors;
            var lb := ComparativeOf(primary, competitors).leaderboard;
            var pool := Pooled(all);
      && |lb| == Min(10, TotalPeriodVideos(all))
      && SortedDesc(lb, LeaderKey)
      && multiset(lb) <= multiset(pool)
      && (forall x, y :: x in multiset(pool) - multiset(lb) && y in lb ==> x.outlierScore <= y.outlierScore)
      && (forall k :: WithKey(lb, LeaderKey, k) <= WithKey(pool, LeaderKey, k))
      && (forall e :: e in lb ==> exists c, v :: c in all && v in c.periodVideos && e == TagVideo(c.channelName, v))
  {
    var all := [primary] + competitors;
    assert ComparativeOf(primary, competitors).leaderboard == TopDesc(Pooled(all), LeaderKey, LeaderboardSize);
    LeaderboardOrder(Pooled(all));
    LeaderboardOfPoolContents(all);
  }

  lemma LeaderboardOrder(pool: seq<LeaderboardEntry>)
    ensures var lb := TopDesc(pool, LeaderKey, LeaderboardSize);
      && SortedDesc(lb, LeaderKey)
      && multiset(lb) <= multiset(pool)
      && (forall x, y :: x in multiset(pool) - multiset(lb) && y in lb ==> x.outlierScore <= y.outlierScore)
      && (forall k :: WithKey(lb, LeaderKey, k) <= WithKey(pool, LeaderKey, k))
  {
    TopDescShape(pool, LeaderKey, LeaderboardSize);
    TopDescIsTop(pool, LeaderKey, LeaderboardSize);
    TopDescStable(pool, LeaderKey, LeaderboardSize);
  }

  lemma LeaderboardOfPoolContents(all: seq<ChannelSummary>)
    ensures var lb := TopDesc(Pooled(all), LeaderKey, LeaderboardSize);
      && |lb| == Min(10, TotalPeriodVideos(all))
      && (forall e :: e in lb ==> exists c, v :: c in all && v in c.periodVideos && e == TagVideo(c.channelName, v))
  {
    var pool := Pooled(all);
    var lb := TopDesc(pool, LeaderKey, LeaderboardSize);
    PooledContents(all);
    TopDescShape(pool, LeaderKey, LeaderboardSize);
    forall e | e in lb ensures e in pool {
      assert e in multiset(lb);
    }
  }

  /** With no competitors the primary is the top performer and the leaderboard is its own. */
  lemma PrimaryOnly(primary: ChannelSummary)
    ensures ComparativeOf(primary, []).topPerformer == Some(primary.channelName)
    ensures ComparativeOf(primary, []).leaderboard
              == TopDesc(Tagged(primary.channelName, primary.periodVideos), LeaderKey, 10)
  {
    TopPerformerCorrect(primary, []);
    assert [primary] + [] == [primary];
    assert [primary][1..] == [];
    var t := Tagged(primary.channelName, primary.periodVideos);
    assert Pooled([primary]) == t + Pooled([]);
    assert t + [] == t;
  }

  // ---------------------------------------------------------------------------
  // Whole run
  // ---------------------------------------------------------------------------

  function SummaryOf(days: int): ChannelData -> ChannelSummary {
    d => BuildChannelSummary(d, days)
  }

  /** `process_all`, as a value. */
  function AnalyticsOf(raw: RawData): AnalyticsResult {
    var days := raw.days.GetOr(DefaultDays);
    var channel := BuildChannelSummary(raw.channel, days);
    var competitors := Map(SummaryOf(days), raw.competitors);
    AnalyticsResult(channel, competitors, ComparativeOf(channel, competitors))
  }

  /** `process_all`: summaries for the primary and every competitor, then the comparison. */
  method ProcessAll(raw: RawData) returns (r: AnalyticsResult)
    ensures r.channel == BuildChannelSummary(raw.channel, raw.days.GetOr(60))
    ensures |r.competitors| == |raw.competitors|
    ensures forall i :: 0 <= i < |raw.competitors| ==>
              r.competitors[i] == BuildChannelSummary(raw.competitors[i], raw.days.GetOr(60))
    ensures r.comparative == ComparativeOf(r.channel, r.competitors)
    ensures r == AnalyticsOf(raw)
  {
    var days := raw.days.GetOr(DefaultDays);
    var channelSummary := BuildChannelSummary(raw.channel, days);
    var competitorSummaries := Map(SummaryOf(days), raw.competitors);
    var comparative := BuildComparativeData(channelSummary, competitorSummaries);
    r := AnalyticsResult(channelSummary, competitorSummaries, comparative);
  }

  /** A run always names a top performer: the cohort holds at least the primary channel. */
  lemma TopPerformerPresent(raw: RawData)
    ensures AnalyticsOf(raw).comparative.topPerformer.Some?
  {
    var a := AnalyticsOf(raw);
    TopPerformerCorrect(a.channel, a.competitors);
  }
}

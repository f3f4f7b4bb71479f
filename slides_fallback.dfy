/**
 * The data-driven fallback text of the report (execution/slides_report.py), used when no
 * AI insights are given: the overview paragraph, the trend, gap and takeaway bullets, the
 * top performer's note and five placeholder video ideas, all computed from the analytics
 * result.
 */
module SlidesFallback {
  import opened Wrappers
  import opened Decimal
  import opened Seqs
  import opened Analytics
  import opened SlidesRegistry
  import opened SlidesText

  // ---------------------------------------------------------------------------
  // Looking a channel up in a ranking
  // ---------------------------------------------------------------------------

  function ViewsName(e: ViewsEntry): string { e.channelName }

  function EngagementName(e: EngagementEntry): string { e.channelName }

  function LeaderName(e: LeaderboardEntry): string { e.channelName }

  function SummaryName(s: ChannelSummary): string { s.channelName }

  /** The 1-based position of the first entry named `name`, if any. */
  function FirstRank(names: seq<string>, name: string): Option<nat>
    decreases |names|
  {
    if names == [] then None
    else if names[0] == name then Some(1)
    else match FirstRank(names[1..], name)
      case None => None
      case Some(k) => Some(k + 1)
  }

  /** A position is found exactly when the name occurs; it is the first occurrence, counted from 1. */
  lemma {:induction false} FirstRankCorrect(names: seq<string>, name: string)
    ensures FirstRank(names, name).None? <==> name !in names
    ensures FirstRank(names, name).Some? ==>
              var r := FirstRank(names, name).value;
              && 1 <= r <= |names| && names[r - 1] == name
              && forall j :: 0 <= j < r - 1 ==> names[j] != name
    decreases |names|
  {
    if names != [] && names[0] != name {
      FirstRankCorrect(names[1..], name);
      assert names == [names[0]] + names[1..];
    }
  }

  /**
   * For a result of `build_comparative_data` the primary channel is always found in the
   * views and the engagement ranking, since each ranking holds one entry per channel.
   */
  lemma PrimaryRanked(primary: ChannelSummary, competitors: seq<ChannelSummary>)
    ensures var c := ComparativeOf(primary, competitors);
      && FirstRank(Map(ViewsName, c.viewsRanking), primary.channelName).Some?
      && FirstRank(Map(EngagementName, c.engagementRanking), primary.channelName).Some?
  {
    var all := [primary] + competitors;
    var c := ComparativeOf(primary, competitors);
    ViewsRankingCorrect(primary, competitors);
    EngagementRankingCorrect(primary, competitors);
    assert Map(ViewsEntryOf, all)[0] == ViewsEntryOf(primary);
    assert ViewsEntryOf(primary) in multiset(c.viewsRanking);
    var i :| 0 <= i < |c.viewsRanking| && c.viewsRanking[i] == ViewsEntryOf(primary);
    assert Map(ViewsName, c.viewsRanking)[i] == primary.channelName;
    FirstRankCorrect(Map(ViewsName, c.viewsRanking), primary.channelName);
    assert Map(EngagementEntryOf, all)[0] == EngagementEntryOf(primary);
    assert EngagementEntryOf(primary) in multiset(c.engagementRanking);
    var j :| 0 <= j < |c.engagementRanking| && c.engagementRanking[j] == EngagementEntryOf(primary);
    assert Map(EngagementName, c.engagementRanking)[j] == primary.channelName;
    FirstRankCorrect(Map(EngagementName, c.engagementRanking), primary.channelName);
  }

  // ---------------------------------------------------------------------------
  // _build_fallback_overview
  // ---------------------------------------------------------------------------

  function ViewsRank(a: AnalyticsResult): Option<nat> {
    FirstRank(Map(ViewsName, a.comparative.viewsRanking), a.channel.channelName)
  }

  function EngagementRank(a: AnalyticsResult): Option<nat> {
    FirstRank(Map(EngagementName, a.comparative.engagementRanking), a.channel.channelName)
  }

  /** The sentence on the leaderboard's first video. */
  function HighestOutlierSentence(v: LeaderboardEntry): string {
    "Highest outlier video: \"" + Truncate(v.title, 40) + "\" by " + v.channelName
    + " (" + FmtOutlier(Some(v.outlierScore)) + " median, " + FmtNumber(Some(v.views)) + " views)."
  }

  /**
   * The sentences of the overview. The engagement clause (or a bare full stop) is appended
   * to the last sentence so far: the ranking sentence when the channel is in the views
   * ranking, otherwise the opening sentence.
   */
  function OverviewParts(a: AnalyticsResult): (parts: seq<string>)
    ensures 2 <= |parts| <= 4
  {
    var name := a.channel.channelName;
    var opening := "Analysis of " + name + " against " + Digits(|a.competitors|) + " competitors.";
    var closing := match EngagementRank(a)
      case Some(e) => " and #" + Digits(e) + " in average engagement."
      case None => ".";
    var head := match ViewsRank(a)
      case Some(r) => [opening, name + " ranks #" + Digits(r) + " in total period views" + closing]
      case None => [opening + closing];
    var lb := a.comparative.leaderboard;
    head + ["Top performer by views: " + ShownName(a.comparative.topPerformer) + "."]
    + if lb != [] then [HighestOutlierSentence(lb[0])] else []
  }

  /** `_build_fallback_overview`: the sentences joined by single spaces. */
  function FallbackOverview(a: AnalyticsResult): string {
    Join(" ", OverviewParts(a))
  }

  /**
   * For the analytics of a run the overview opens with the cohort size, then states the
   * channel's 1-based positions in the views and engagement rankings in one sentence, names
   * the top performer, and ends with the highest outlier video when the leaderboard has one.
   */
  lemma OverviewOfRun(primary: ChannelSummary, competitors: seq<ChannelSummary>)
    ensures var a := AnalyticsResult(primary, competitors, ComparativeOf(primary, competitors));
      && ViewsRank(a).Some? && EngagementRank(a).Some?
      && OverviewReads(a, ViewsRank(a).value, EngagementRank(a).value)
  {
    var a := AnalyticsResult(primary, competitors, ComparativeOf(primary, competitors));
    PrimaryRanked(primary, competitors);
    OverviewRanked(a);
  }

  /** The overview of a channel found at views rank `v` and engagement rank `e`. */
  predicate OverviewReads(a: AnalyticsResult, v: nat, e: nat) {
    var parts := OverviewParts(a);
    var name := a.channel.channelName;
    && |parts| == (if a.comparative.leaderboard == [] then 3 else 4)
    && parts[0] == "Analysis of " + name + " against " + Digits(|a.competitors|) + " competitors."
    && parts[1] == name + " ranks #" + Digits(v) + " in total period views" + (" and #" + Digits(e) + " in average engagement.")
    && parts[2] == "Top performer by views: " + ShownName(a.comparative.topPerformer) + "."
    && (a.comparative.leaderboard != [] ==> parts[3] == HighestOutlierSentence(a.comparative.leaderboard[0]))
  }

  /** A channel found in both rankings gets the opening, ranking and top-performer sentences in that order. */
  lemma OverviewRanked(a: AnalyticsResult)
    requires ViewsRank(a).Some? && EngagementRank(a).Some?
    ensures OverviewReads(a, ViewsRank(a).value, EngagementRank(a).value)
  {
  }

  /**
   * When the channel is missing from the views ranking, the engagement clause lands on the
   * opening sentence, which then reads "... competitors. and #e in average engagement."
   * (or ends in ".." when it is missing from both rankings).
   */
  lemma OverviewUnranked(a: AnalyticsResult)
    requires ViewsRank(a).None?
    ensures var parts := OverviewParts(a);
            var opening := "Analysis of " + a.channel.channelName + " against " + Digits(|a.competitors|) + " competitors.";
      && parts[0] == opening + (if EngagementRank(a).Some? then " and #" + Digits(EngagementRank(a).value) + " in average engagement." else ".")
      && parts[1] == "Top performer by views: " + ShownName(a.comparative.topPerformer) + "."
  {
  }

  // ---------------------------------------------------------------------------
  // _build_fallback_trends
  // ---------------------------------------------------------------------------

  /** The channel names of a list of leaderboard videos, as a set. */
  function LeaderNames(lb: seq<LeaderboardEntry>): (r: set<string>)
    ensures forall x :: x in r <==> exists i :: 0 <= i < |lb| && lb[i].channelName == x
    decreases |lb|
  {
    if lb == [] then {} else {lb[0].channelName} + LeaderNames(lb[1..])
  }

  /** `order` lists the set `s`, each element once: one iteration order of a Python set. */
  predicate Lists(order: seq<string>, s: set<string>) {
    Distinct(order) && (forall x :: x in order ==> x in s) && (forall x :: x in s ==> x in order)
  }

  /** The channels of the five best leaderboard videos. */
  function OutlierChannels(a: AnalyticsResult): set<string> {
    LeaderNames(Take(a.comparative.leaderboard, 5))
  }

  function OutlierTrend(order: seq<string>): string {
    if |order| == 1 then order[0] + " dominates the top outlier videos"
    else "Top outlier videos spread across " + Join(", ", Take(order, 3))
  }

  /**
   * `_build_fallback_trends`, with `order` the order in which the set of outlier channels
   * is iterated (Python leaves it unspecified).
   */
  function FallbackTrends(a: AnalyticsResult, order: seq<string>): seq<string>
    requires Lists(order, OutlierChannels(a))
  {
    var vr := a.comparative.viewsRanking;
    var er := a.comparative.engagementRanking;
    var lb := a.comparative.leaderboard;
    var trends :=
      (if |vr| >= 2
       then [vr[0].channelName + " leads in views with " + FmtNumber(Some(vr[0].totalPeriodViews)) + " total period views"]
       else [])
      + (if er != []
         then [er[0].channelName + " has highest engagement at " + FmtEngagement(Some(er[0].avgEngagement))]
         else [])
      + (if lb != [] then [OutlierTrend(order)] else []);
    Take(trends, 3)
  }

  /**
   * One bullet per available fact: the views leader (when at least two channels are ranked),
   * the engagement leader and the outlier channels. The last says one channel "dominates"
   * exactly when all of the top five leaderboard videos come from one channel, and otherwise
   * lists up to three distinct channels, all of them among those videos' channels.
   */
  lemma TrendsCorrect(a: AnalyticsResult, order: seq<string>)
    requires Lists(order, OutlierChannels(a))
    ensures var r := FallbackTrends(a, order);
            var lb := a.comparative.leaderboard;
            var top := Take(lb, 5);
      && |r| == (if |a.comparative.viewsRanking| >= 2 then 1 else 0)
                + (if a.comparative.engagementRanking != [] then 1 else 0) + (if lb != [] then 1 else 0)
      && (lb != [] ==> r[|r| - 1] == OutlierTrend(order))
      && (lb != [] ==> (|order| == 1 <==> SameChannel(top)))
      && (lb != [] && |order| != 1 ==> NamesAmong(Take(order, 3), top) && |Take(order, 3)| == Min(3, |order|))
  {
    var lb := a.comparative.leaderboard;
    if lb != [] {
      OutlierTrendNames(Take(lb, 5), order);
    }
  }

  /** All the videos come from one channel. */
  predicate SameChannel(top: seq<LeaderboardEntry>) {
    forall i, j :: 0 <= i < |top| && 0 <= j < |top| ==> top[i].channelName == top[j].channelName
  }

  /** `names` are distinct, and each is the channel of one of the videos. */
  predicate NamesAmong(names: seq<string>, top: seq<LeaderboardEntry>) {
    Distinct(names) && forall x :: x in names ==> x in LeaderNames(top)
  }

  /**
   * For a non-empty list of videos whose channel set is iterated as `order`: a single
   * channel exactly when all of them share it, and any prefix of `order` names distinct
   * channels of those videos.
   */
  lemma OutlierTrendNames(top: seq<LeaderboardEntry>, order: seq<string>)
    requires top != [] && Lists(order, LeaderNames(top))
    ensures |order| == 1 <==> SameChannel(top)
    ensures NamesAmong(Take(order, 3), top)
  {
    SingleChannelIff(top, order);
    PrefixNamesAmong(top, order, 3);
  }

  lemma SingleChannelIff(top: seq<LeaderboardEntry>, order: seq<string>)
    requires top != [] && Lists(order, LeaderNames(top))
    ensures |order| == 1 <==> SameChannel(top)
  {
    assert top[0].channelName in LeaderNames(top);
    if |order| == 1 {
      forall i, j | 0 <= i < |top| && 0 <= j < |top|
        ensures top[i].channelName == top[j].channelName
      {
        assert top[i].channelName in LeaderNames(top) && top[j].channelName in LeaderNames(top);
      }
    } else {
      assert order[0] in order && order[1] in order;
      assert order[0] != order[1];
      var i0 :| 0 <= i0 < |top| && top[i0].channelName == order[0];
      var i1 :| 0 <= i1 < |top| && top[i1].channelName == order[1];
      assert top[i0].channelName != top[i1].channelName;
    }
  }

  lemma PrefixNamesAmong(top: seq<LeaderboardEntry>, order: seq<string>, n: nat)
    requires Lists(order, LeaderNames(top))
    ensures NamesAmong(Take(order, n), top)
  {
    var t := Take(order, n);
    assert Distinct(t) by {
      assert forall i, j :: 0 <= i < j < |t| ==> t[i] == order[i] && t[j] == order[j];
    }
    forall x | x in t ensures x in LeaderNames(top) {
      assert x in order;
    }
  }

  // ---------------------------------------------------------------------------
  // _build_fallback_gaps
  // ---------------------------------------------------------------------------

  /** More than 1.5 times the channel's upload frequency. */
  function UploadsFaster(ch: ChannelSummary): ChannelSummary -> bool {
    (c: ChannelSummary) => c.uploadFrequency > ch.uploadFrequency * 1.5
  }

  /** More than 1.2 times the channel's average engagement. */
  function EngagesMore(ch: ChannelSummary): ChannelSummary -> bool {
    (c: ChannelSummary) => c.avgEngagement > ch.avgEngagement * 1.2
  }

  /** More than 1.5 times the channel's total period views (compared as reals, as Python compares with a float). */
  function ViewedMore(ch: ChannelSummary): ChannelSummary -> bool {
    (c: ChannelSummary) => c.totalPeriodViews as real > ch.totalPeriodViews as real * 1.5
  }

  function FasterUploaders(a: AnalyticsResult): seq<ChannelSummary> {
    Filter(UploadsFaster(a.channel), a.competitors)
  }

  function MoreEngaging(a: AnalyticsResult): seq<ChannelSummary> {
    Filter(EngagesMore(a.channel), a.competitors)
  }

  function MoreViewed(a: AnalyticsResult): seq<ChannelSummary> {
    Filter(ViewedMore(a.channel), a.competitors)
  }

  /** The first two names of a filtered list, joined by commas. */
  function FirstNames(cs: seq<ChannelSummary>): string {
    Join(", ", Map(SummaryName, Take(cs, 2)))
  }

  const NoGaps := "No significant content gaps identified" + " — channel is competitive across key metrics"

  /** `_build_fallback_gaps`: one bullet per gap found, or the no-gap bullet. */
  function FallbackGaps(a: AnalyticsResult): seq<string> {
    var gaps := Gaps(a);
    Take(if gaps == [] then [NoGaps] else gaps, 3)
  }

  /** The bullet of one test: its heading, the first two names, its ending; none when nobody passes. */
  function GapBullet(found: seq<ChannelSummary>, heading: string, ending: string): (r: seq<string>)
    ensures |r| == (if found == [] then 0 else 1)
  {
    if found != [] then [heading + FirstNames(found) + ending] else []
  }

  /** The gap bullets found, in the order of the three tests. */
  function Gaps(a: AnalyticsResult): seq<string> {
    GapBullet(FasterUploaders(a), "Upload frequency gap: ", " publish significantly more often")
    + GapBullet(MoreEngaging(a), "Engagement gap: ", " achieve higher engagement rates")
    + GapBullet(MoreViewed(a), "Views gap: ", " generate significantly more total views")
  }

  /** The number of kinds of gap found. */
  function GapKinds(a: AnalyticsResult): nat {
    (if FasterUploaders(a) != [] then 1 else 0) + (if MoreEngaging(a) != [] then 1 else 0)
    + (if MoreViewed(a) != [] then 1 else 0)
  }

  /**
   * There are one to three bullets, one per kind of gap found; the no-gap bullet is given
   * exactly when none is found.
   */
  lemma GapsCount(a: AnalyticsResult)
    ensures var r := FallbackGaps(a);
      && 1 <= |r| <= 3
      && |r| == Max(1, GapKinds(a))
      && (r == [NoGaps] <==> GapKinds(a) == 0)
  {
    var gaps := Gaps(a);
    assert |gaps| == GapKinds(a);
    assert NoGaps[0] == 'N';
    if gaps != [] {
      var head := if FasterUploaders(a) != [] then "Upload frequency gap: "
                  else if MoreEngaging(a) != [] then "Engagement gap: " else "Views gap: ";
      assert gaps[0][..|head|] == head;
      assert gaps[0][0] != 'N';
    }
  }

  /**
   * No gap is found exactly when no competitor beats the channel by the factor of any of the
   * three tests: 1.5 times the upload frequency, 1.2 times the engagement, 1.5 times the views.
   */
  lemma NoGapsIff(a: AnalyticsResult)
    ensures GapKinds(a) == 0 <==>
              forall c :: c in a.competitors ==>
                && c.uploadFrequency <= a.channel.uploadFrequency * 1.5
                && c.avgEngagement <= a.channel.avgEngagement * 1.2
                && c.totalPeriodViews as real <= a.channel.totalPeriodViews as real * 1.5
  {
    GapFilters(a);
    if FasterUploaders(a) != [] {
      assert FasterUploaders(a)[0] in FasterUploaders(a);
    }
    if MoreEngaging(a) != [] {
      assert MoreEngaging(a)[0] in MoreEngaging(a);
    }
    if MoreViewed(a) != [] {
      assert MoreViewed(a)[0] in MoreViewed(a);
    }
  }

  /** Each gap list holds exactly the competitors that pass its test. */
  lemma GapFilters(a: AnalyticsResult)
    ensures forall c :: c in FasterUploaders(a) <==> c in a.competitors && c.uploadFrequency > a.channel.uploadFrequency * 1.5
    ensures forall c :: c in MoreEngaging(a) <==> c in a.competitors && c.avgEngagement > a.channel.avgEngagement * 1.2
    ensures forall c :: c in MoreViewed(a) <==>
              c in a.competitors && c.totalPeriodViews as real > a.channel.totalPeriodViews as real * 1.5
  {
    FilterMultiset(UploadsFaster(a.channel), a.competitors);
    FilterMultiset(EngagesMore(a.channel), a.competitors);
    FilterMultiset(ViewedMore(a.channel), a.competitors);
  }

  /** The names a gap bullet gives are those of the first two competitors that pass its test. */
  lemma GapNamesQualify(a: AnalyticsResult)
    ensures forall c :: c in Take(FasterUploaders(a), 2) ==> c in a.competitors && c.uploadFrequency > a.channel.uploadFrequency * 1.5
    ensures forall c :: c in Take(MoreEngaging(a), 2) ==> c in a.competitors && c.avgEngagement > a.channel.avgEngagement * 1.2
    ensures forall c :: c in Take(MoreViewed(a), 2) ==>
              c in a.competitors && c.totalPeriodViews as real > a.channel.totalPeriodViews as real * 1.5
  {
    GapFilters(a);
  }

  // ---------------------------------------------------------------------------
  // _build_fallback_top_performer_note
  // ---------------------------------------------------------------------------

  /** The first summary whose name is the given one. */
  function FindChannel(all: seq<ChannelSummary>, name: Option<string>): (r: Option<ChannelSummary>)
    ensures r.Some? ==> r.value in all && name == Some(r.value.channelName)
    ensures r.Some? ==>
              exists k :: 0 <= k < |all| && all[k] == r.value && (forall j :: 0 <= j < k ==> name != Some(all[j].channelName))
    ensures r.None? <==> forall c :: c in all ==> name != Some(c.channelName)
    decreases |all|
  {
    if all == [] then None
    else if name == Some(all[0].channelName) then
      assert all[0] == all[0];
      Some(all[0])
    else
      var rest := FindChannel(all[1..], name);
      assert rest.Some? ==>
               exists k :: 0 <= k < |all| && all[k] == rest.value && (forall j :: 0 <= j < k ==> name != Some(all[j].channelName)) by {
        if rest.Some? {
          var k' :| 0 <= k' < |all[1..]| && all[1..][k'] == rest.value
                    && forall j :: 0 <= j < k' ==> name != Some(all[1..][j].channelName);
          assert all[k' + 1] == rest.value;
          assert forall j :: 0 <= j < k' + 1 ==> name != Some(all[j].channelName) by {
            forall j | 0 <= j < k' + 1 ensures name != Some(all[j].channelName) {
              if j > 0 { assert all[j] == all[1..][j - 1]; }
            }
          }
        }
      }
      rest
  }

  /** Floor division of the views by the video count, 0 for a channel without videos. */
  function AverageViews(c: ChannelSummary): nat {
    if c.videoCount == 0 then 0 else c.totalPeriodViews / c.videoCount
  }

  /** `_build_fallback_top_performer_note`: empty when no channel carries the top performer's name. */
  function TopPerformerNote(a: AnalyticsResult): string {
    match FindChannel([a.channel] + a.competitors, a.comparative.topPerformer)
    case None => ""
    case Some(c) => FmtNumber(Some(AverageViews(c))) + " avg views/video across " + Digits(c.videoCount) + " videos"
  }

  /** The average is the floor of views per video: `avg * count <= views < (avg + 1) * count`. */
  lemma AverageViewsBounds(c: ChannelSummary)
    ensures c.videoCount == 0 ==> AverageViews(c) == 0
    ensures c.videoCount > 0 ==>
              AverageViews(c) * c.videoCount <= c.totalPeriodViews < (AverageViews(c) + 1) * c.videoCount
  {
  }

  /**
   * For the analytics of a run the note is never empty: the top performer is a channel of
   * the cohort, and the note speaks of the first channel bearing its name.
   */
  lemma NoteOfRun(primary: ChannelSummary, competitors: seq<ChannelSummary>)
    ensures var a := AnalyticsResult(primary, competitors, ComparativeOf(primary, competitors));
      && FindChannel([primary] + competitors, a.comparative.topPerformer).Some?
      && TopPerformerNote(a) != ""
  {
    var all := [primary] + competitors;
    TopPerformerCorrect(primary, competitors);
    var k :| 0 <= k < |all| && ComparativeOf(primary, competitors).topPerformer == Some(all[k].channelName);
    assert all[k] in all;
  }

  // ---------------------------------------------------------------------------
  // _build_fallback_ideas
  // ---------------------------------------------------------------------------

  /** A video idea as the report's idea slides read it. */
  datatype Idea = Idea(title: string, titleVariations: seq<string>, hooks: seq<string>, topic: string)

  const IdeaCount := 5

  /** The idea drawn from one leaderboard video. */
  function IdeaFor(v: LeaderboardEntry): Idea {
    Idea(
      "Inspired by: " + Truncate(v.title, 45),
      ["Variation on: " + Truncate(v.title, 40),
       "Our take on " + v.channelName + "'s top video",
       "Why \"" + Truncate(v.title, 30) + "\" went viral",
       "Response to " + v.channelName + ": " + Truncate(v.title, 25),
       "Deep dive: " + Truncate(v.title, 35)],
      ["This video by " + v.channelName + " got " + FmtNumber(Some(v.views)) + " views and scored "
       + FmtOutlier(Some(v.outlierScore)) + " — here's what made it work.",
       "With " + FmtEngagement(Some(v.engagement)) + " engagement, this topic clearly resonates with the audience. "
       + "Here's how to put your own spin on it."],
      "Based on " + v.channelName + "'s outlier (" + FmtOutlier(Some(v.outlierScore)) + ")")
  }

  const PendingVariation := "AI-generated ideas will appear here after Feature 4 is enabled"
  const PendingHook := "Hook content will be generated by Claude AI analysis."

  /** The placeholder idea in position `n` (counted from 1). */
  function PendingIdea(n: nat): Idea {
    Idea("Video Idea #" + Digits(n) + " — AI insights pending",
         [PendingVariation, PendingVariation, PendingVariation, PendingVariation, PendingVariation],
         [PendingHook, PendingHook],
         "Pending AI analysis")
  }

  /** Placeholders for positions `from + 1` to `to`. */
  function Padding(from: nat, to: nat): (r: seq<Idea>)
    requires from <= to
    ensures |r| == to - from
    ensures forall j :: 0 <= j < to - from ==> r[j] == PendingIdea(from + j + 1)
  {
    seq(to - from, j requires 0 <= j < to - from => PendingIdea(from + j + 1))
  }

  /** `_build_fallback_ideas`, as a value: ideas from the top five videos, padded to five. */
  function FallbackIdeas(lb: seq<LeaderboardEntry>): seq<Idea> {
    var top := Take(lb, IdeaCount);
    Map(IdeaFor, top) + Padding(|top|, IdeaCount)
  }

  /** `_build_fallback_ideas`: one idea per leaderboard video up to five, then placeholders while fewer than five. */
  method BuildFallbackIdeas(lb: seq<LeaderboardEntry>) returns (ideas: seq<Idea>)
    ensures ideas == FallbackIdeas(lb)
  {
    var top := Take(lb, 5);
    ideas := [];
    for i := 0 to |top|
      invariant ideas == Map(IdeaFor, top[..i])
    {
      MapPrefixStep(IdeaFor, top, i);
      ideas := ideas + [IdeaFor(top[i])];
    }
    assert top[..|top|] == top;
    while |ideas| < 5
      invariant |top| <= |ideas| <= 5
      invariant ideas == Map(IdeaFor, top) + Padding(|top|, |ideas|)
      decreases 5 - |ideas|
    {
      ideas := ideas + [PendingIdea(|ideas| + 1)];
    }
  }

  /**
   * There are always exactly five ideas: the i-th drawn from the i-th leaderboard video while
   * there is one among the first five, the rest placeholders numbered by their position; each
   * idea has five title variations and two hooks.
   */
  lemma FallbackIdeasCorrect(lb: seq<LeaderboardEntry>)
    ensures var r := FallbackIdeas(lb);
      && |r| == 5
      && (forall i :: 0 <= i < Min(5, |lb|) ==> r[i] == IdeaFor(lb[i]))
      && (forall i :: Min(5, |lb|) <= i < 5 ==> r[i] == PendingIdea(i + 1))
    ensures forall i :: 0 <= i < 5 ==>
              |FallbackIdeas(lb)[i].titleVariations| == 5 && |FallbackIdeas(lb)[i].hooks| == 2
  {
    FallbackIdeasShape(lb);
  }

  lemma FallbackIdeasShape(lb: seq<LeaderboardEntry>)
    ensures |FallbackIdeas(lb)| == 5
    ensures forall i :: 0 <= i < 5 ==>
              |FallbackIdeas(lb)[i].titleVariations| == 5 && |FallbackIdeas(lb)[i].hooks| == 2
  {
    var top := Take(lb, IdeaCount);
    var r := FallbackIdeas(lb);
    forall i | 0 <= i < 5
      ensures |r[i].titleVariations| == 5 && |r[i].hooks| == 2
    {
      if i < |top| {
        assert r[i] == IdeaFor(top[i]);
        IdeaShape(top[i]);
      } else {
        assert r[i] == PendingIdea(i + 1);
        PendingShape(i + 1);
      }
    }
  }

  lemma IdeaShape(v: LeaderboardEntry)
    ensures |IdeaFor(v).titleVariations| == 5 && |IdeaFor(v).hooks| == 2
  {
  }

  lemma PendingShape(n: nat)
    ensures |PendingIdea(n).titleVariations| == 5 && |PendingIdea(n).hooks| == 2
  {
  }

  /** The title of an idea drawn from a video keeps at most 45 characters of its title. */
  lemma IdeaTitleBounded(v: LeaderboardEntry)
    ensures |IdeaFor(v).title| <= |"Inspired by: "| + 45
    ensures |v.title| <= 45 ==> IdeaFor(v).title == "Inspired by: " + v.title
  {
    TruncateCorrect(v.title, 45);
  }

  // ---------------------------------------------------------------------------
  // _build_fallback_takeaways
  // ---------------------------------------------------------------------------

  const EnableInsights :=
    "Enable AI insights (Feature 4) for personalized content strategy recommendations and data-driven video ideas."

  /** The channel's views rank, or the ranking's length when it is not ranked. */
  function TakeawayRank(a: AnalyticsResult): nat {
    ViewsRank(a).GetOr(|a.comparative.viewsRanking|)
  }

  /** The first takeaway: the channel's rank out of the ranked channels, and the top performer. */
  function RankTakeaway(a: AnalyticsResult): string {
    a.channel.channelName + " ranks #" + Digits(TakeawayRank(a)) + " of " + Digits(|a.comparative.viewsRanking|)
    + " channels in total period views. Top performer is " + ShownName(a.comparative.topPerformer) + "."
  }

  /** The takeaway on the leaderboard's first video. */
  function VideoTakeaway(v: LeaderboardEntry): string {
    "The highest-performing video across all channels is \"" + Truncate(v.title, 40) + "\" by "
    + v.channelName + " with " + FmtOutlier(Some(v.outlierScore)) + " median performance."
  }

  /** `_build_fallback_takeaways`. */
  function FallbackTakeaways(a: AnalyticsResult): seq<string> {
    var lb := a.comparative.leaderboard;
    Take([RankTakeaway(a)] + (if lb != [] then [VideoTakeaway(lb[0])] else []) + [EnableInsights], 3)
  }

  /**
   * Two takeaways, or three when the leaderboard has a video; the last always asks to enable
   * AI insights. The stated rank never exceeds the number of ranked channels, and for the
   * analytics of a run it is the channel's 1-based position in the views ranking, out of
   * every channel of the cohort.
   */
  lemma TakeawaysCorrect(a: AnalyticsResult)
    ensures var r := FallbackTakeaways(a);
      && |r| == (if a.comparative.leaderboard == [] then 2 else 3)
      && r[0] == RankTakeaway(a)
      && (a.comparative.leaderboard != [] ==> r[1] == VideoTakeaway(a.comparative.leaderboard[0]))
      && r[|r| - 1] == EnableInsights
    ensures TakeawayRank(a) <= |a.comparative.viewsRanking|
    ensures ViewsRank(a).None? ==> TakeawayRank(a) == |a.comparative.viewsRanking|
    ensures ViewsRank(a).Some? ==>
              1 <= TakeawayRank(a) && a.comparative.viewsRanking[TakeawayRank(a) - 1].channelName == a.channel.channelName
  {
    TakeawayRankCorrect(a);
  }

  lemma TakeawayRankCorrect(a: AnalyticsResult)
    ensures TakeawayRank(a) <= |a.comparative.viewsRanking|
    ensures ViewsRank(a).None? ==> TakeawayRank(a) == |a.comparative.viewsRanking|
    ensures ViewsRank(a).Some? ==>
              1 <= TakeawayRank(a) && a.comparative.viewsRanking[TakeawayRank(a) - 1].channelName == a.channel.channelName
  {
    FirstRankCorrect(Map(ViewsName, a.comparative.viewsRanking), a.channel.channelName);
  }

  /** For the analytics of a run the channel is ranked, out of all `1 + |competitors|` channels. */
  lemma TakeawaysOfRun(primary: ChannelSummary, competitors: seq<ChannelSummary>)
    ensures var a := AnalyticsResult(primary, competitors, ComparativeOf(primary, competitors));
      && ViewsRank(a).Some?
      && 1 <= TakeawayRank(a) <= 1 + |competitors|
      && |a.comparative.viewsRanking| == 1 + |competitors|
  {
    var a := AnalyticsResult(primary, competitors, ComparativeOf(primary, competitors));
    PrimaryRanked(primary, competitors);
    ViewsRankingCorrect(primary, competitors);
    TakeawaysCorrect(a);
  }
}

/**
 * What a whole run computes, shared by the web pipeline (`run_pipeline` in
 * execution/pipeline.py) and the command line (`main` in execution/main.py): the key
 * check, the 4..7 competitor-count checks, de-duplication, the fetch of the primary
 * channel and then of each competitor, and the summary with its quota estimate. The two
 * entry points word their messages differently; they render the `Stage` defined here.
 *
 * `fetch_channel_data` is a network call. It is a parameter `fetch` here: the handle
 * either yields the channel's data or fails with the exception's text.
 */
module Run {
  import opened Wrappers
  import opened Handles
  import opened Analytics

  const MinCompetitors := 4
  const MaxCompetitors := 7
  /** Quota units estimated per fetched channel. */
  const QuotaPerChannel := 6

  datatype FetchResult = Fetched(data: ChannelData) | FetchFailed(reason: string)

  /** The summary of a finished run. */
  datatype RunSummary = RunSummary(
    channelsFetched: nat,
    failedChannels: seq<string>,
    totalVideos: nat,
    quotaEstimate: nat)

  /** Where a run stops: one of the five error exits, or the finished summary. */
  datatype Stage =
    | MissingKey
    | TooFewCompetitors(given: nat)
    | TooManyCompetitors(given: nat)
    | TooFewUnique(unique: nat)
    | PrimaryFailed(reason: string)
    | TooFewFetched(fetched: nat)
    | Done(raw: RawData, summary: RunSummary)

  /** `os.getenv("YOUTUBE_API_KEY")` is unset or empty. */
  predicate KeyMissing(apiKey: Option<string>) {
    apiKey == None || apiKey == Some("")
  }

  /** Videos a fetched channel contributes to `total_videos`. */
  function VideoCount(d: ChannelData): nat {
    |d.periodVideos| + |d.baselineVideos|
  }

  function SumVideoCounts(ds: seq<ChannelData>): nat {
    if ds == [] then 0 else SumVideoCounts(ds[..|ds| - 1]) + VideoCount(ds[|ds| - 1])
  }

  /** The competitors fetched successfully, in order, tagged with the competitor role. */
  function FetchedData(fetch: string -> FetchResult, handles: seq<string>): seq<ChannelData> {
    if handles == [] then []
    else FetchedData(fetch, handles[..|handles| - 1])
         + match fetch(handles[|handles| - 1])
           case Fetched(d) => [d.(role := Some(CompetitorRole))]
           case FetchFailed(_) => []
  }

  /** The competitors whose fetch failed, in order. */
  function FailedHandles(fetch: string -> FetchResult, handles: seq<string>): seq<string> {
    if handles == [] then []
    else FailedHandles(fetch, handles[..|handles| - 1])
         + if fetch(handles[|handles| - 1]).FetchFailed? then [handles[|handles| - 1]] else []
  }

  /** The stage a run with these inputs ends in. */
  function RunOf(apiKey: Option<string>, channel: string, competitors: seq<string>, days: int,
                 fetch: string -> FetchResult): Stage
  {
    if KeyMissing(apiKey) then MissingKey
    else if |competitors| < MinCompetitors then TooFewCompetitors(|competitors|)
    else if |competitors| > MaxCompetitors then TooManyCompetitors(|competitors|)
    else
      var unique := Unique(channel, competitors);
      if |unique| < MinCompetitors then TooFewUnique(|unique|)
      else FetchStage(channel, unique, days, fetch)
  }

  /** The fetches, once the surviving competitors `unique` are known. */
  function FetchStage(channel: string, unique: seq<string>, days: int, fetch: string -> FetchResult): Stage {
    match fetch(channel)
    case FetchFailed(e) => PrimaryFailed(e)
    case Fetched(d) =>
      var primary := d.(role := Some(ChannelRole));
      Finish(primary, FetchedData(fetch, unique), FailedHandles(fetch, unique), days)
  }

  /**
   * The last check, once the primary channel is fetched; then the raw data handed to
   * `process_all` and the summary.
   */
  function Finish(primary: ChannelData, data: seq<ChannelData>, failed: seq<string>, days: int): Stage {
    if |data| < MinCompetitors then TooFewFetched(|data|)
    else
      var channels := 1 + |data|;
      Done(RawData(Some(days), primary, data),
           RunSummary(channels, failed, VideoCount(primary) + SumVideoCounts(data), channels * QuotaPerChannel))
  }

  /** Every competitor is either fetched or listed as failed; each failed one did fail. */
  lemma {:induction false} FetchPartition(fetch: string -> FetchResult, handles: seq<string>)
    ensures |FetchedData(fetch, handles)| + |FailedHandles(fetch, handles)| == |handles|
    ensures forall h :: h in FailedHandles(fetch, handles) ==> h in handles && fetch(h).FetchFailed?
    ensures forall k :: 0 <= k < |FetchedData(fetch, handles)| ==>
              FetchedData(fetch, handles)[k].role == Some(CompetitorRole)
  {
    if handles != [] {
      var init := handles[..|handles| - 1];
      FetchPartition(fetch, init);
      assert forall h :: h in init ==> h in handles;
    }
  }

  /**
   * A run stops with an error exactly when the key is missing, fewer than 4 or more than 7
   * competitors are given, fewer than 4 survive de-duplication, the primary channel cannot
   * be fetched, or fewer than 4 competitors are fetched.
   */
  lemma RunStops(apiKey: Option<string>, channel: string, competitors: seq<string>, days: int,
                 fetch: string -> FetchResult)
    ensures !RunOf(apiKey, channel, competitors, days, fetch).Done? <==>
      || KeyMissing(apiKey)
      || |competitors| < 4 || |competitors| > 7
      || |Unique(channel, competitors)| < 4
      || fetch(channel).FetchFailed?
      || |FetchedData(fetch, Unique(channel, competitors))| < 4
  {
  }

  /**
   * A finished run fetched the primary channel and 4 to 7 competitors, accounts for every
   * surviving competitor, and estimates 6 quota units per fetched channel.
   */
  lemma RunDone(apiKey: Option<string>, channel: string, competitors: seq<string>, days: int,
                fetch: string -> FetchResult)
    requires RunOf(apiKey, channel, competitors, days, fetch).Done?
    ensures var s := RunOf(apiKey, channel, competitors, days, fetch).summary;
      var unique := Unique(channel, competitors);
      && s.quotaEstimate == 6 * s.channelsFetched
      && s.channelsFetched == 1 + |FetchedData(fetch, unique)|
      && s.channelsFetched + |s.failedChannels| == 1 + |unique|
      && 5 <= s.channelsFetched <= 8
      && |RunOf(apiKey, channel, competitors, days, fetch).raw.competitors| == s.channelsFetched - 1
  {
    var unique := Unique(channel, competitors);
    FetchPartition(fetch, unique);
    DedupCount(channel, competitors);
  }
}

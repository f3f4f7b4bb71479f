/**
 * The command-line entry point (execution/main.py): its own copy of
 * `deduplicate_handles`, and `main`'s validation and fetch steps ending in the lines it
 * prints before `sys.exit(1)`, or in the raw data and the summary.
 */
module Cli {
  import opened Wrappers
  import opened Decimal
  import opened Handles
  import opened Analytics
  import opened Run

  /** How `main` ends: printing error lines and exiting with status 1, or finishing. */
  datatype Outcome = Exit(lines: seq<string>) | Completed(raw: RawData, summary: RunSummary)

  /**
   * `deduplicate_handles` of the command line. It normalises every handle up front and
   * seeds `seen` with the primary channel's form; it returns the same list as
   * `Pipeline.DeduplicateHandles`, since both equal `Handles.Unique`.
   */
  method DeduplicateHandles(channel: string, competitors: seq<string>) returns (uniqueCompetitors: seq<string>)
    ensures uniqueCompetitors == Unique(channel, competitors)
  {
    var allHandles := seq(|competitors| + 1, k requires 0 <= k <= |competitors| =>
      if k == 0 then Normalize(channel) else Normalize(competitors[k - 1]));
    var seen: set<string> := {};
    uniqueCompetitors := [];
    assert allHandles[0] == Normalize(channel);
    seen := seen + {allHandles[0]};
    for i := 0 to |competitors|
      invariant seen == SeenForms(Normalize, channel, competitors, i)
      invariant uniqueCompetitors == UniqueUpTo(Normalize, channel, competitors, i)
    {
      var comp := competitors[i];
      var normalized := Normalize(comp);
      SeenFormsKept(Normalize, channel, competitors, i);
      if normalized !in seen {
        seen := seen + {normalized};
        uniqueCompetitors := uniqueCompetitors + [comp];
      }
    }
  }

  /** The lines `main` prints before exiting with status 1 at each error stage. */
  function Render(envPath: string, channel: string, stage: Stage): Outcome {
    if stage.Done? then Completed(stage.raw, stage.summary) else Exit(ErrorLines(envPath, channel, stage))
  }

  function ErrorLines(envPath: string, channel: string, stage: Stage): seq<string>
    requires !stage.Done?
  {
    match stage
    case MissingKey =>
      ["Error: YOUTUBE_API_KEY not set in .env file",
       "  Copy .env.example to .env and add your key: " + envPath]
    case TooFewCompetitors(n) => ["Error: need at least 4 competitors, got " + Digits(n)]
    case TooManyCompetitors(n) => ["Error: max 7 competitors, got " + Digits(n)]
    case TooFewUnique(n) => ["Error: after deduplication, only " + Digits(n) + " unique competitors remain (need 4)"]
    case PrimaryFailed(e) => ["  Error fetching " + channel + ": " + e, "  Cannot continue without the primary channel."]
    case TooFewFetched(n) => ["\nError: only " + Digits(n) + " competitors fetched successfully (need 4)"]
  }

  /**
   * `main` up to its summary, with the parsed arguments as parameters and `envPath` the
   * path of the `.env` file it names in its first error.
   */
  method MainCommand(apiKey: Option<string>, envPath: string, channel: string, competitors: seq<string>, days: int,
              fetch: string -> FetchResult)
    returns (outcome: Outcome)
    ensures outcome == Render(envPath, channel, RunOf(apiKey, channel, competitors, days, fetch))
  {
    if apiKey == None || apiKey == Some("") {
      return Exit(["Error: YOUTUBE_API_KEY not set in .env file",
                   "  Copy .env.example to .env and add your key: " + envPath]);
    }
    if |competitors| < MinCompetitors {
      return Exit(["Error: need at least 4 competitors, got " + Digits(|competitors|)]);
    }
    if |competitors| > MaxCompetitors {
      return Exit(["Error: max 7 competitors, got " + Digits(|competitors|)]);
    }
    var unique := DeduplicateHandles(channel, competitors);
    if |unique| < MinCompetitors {
      return Exit(["Error: after deduplication, only " + Digits(|unique|) + " unique competitors remain (need 4)"]);
    }
    outcome := FetchAll(envPath, channel, unique, days, fetch);
  }

  /**
   * The fetch part of `main`: the primary channel (a failure exits), then each competitor
   * in order, accumulating the fetched data, the failed handles and the video total; at
   * least 4 fetched competitors are needed.
   */
  method FetchAll(envPath: string, channel: string, unique: seq<string>, days: int, fetch: string -> FetchResult)
    returns (outcome: Outcome)
    ensures outcome == Render(envPath, channel, FetchStage(channel, unique, days, fetch))
  {
    var totalVideos: nat := 0;
    var failedChannels: seq<string> := [];
    var primaryResult := fetch(channel);
    if primaryResult.FetchFailed? {
      assert FetchStage(channel, unique, days, fetch) == PrimaryFailed(primaryResult.reason);
      return Exit(["  Error fetching " + channel + ": " + primaryResult.reason,
                   "  Cannot continue without the primary channel."]);
    }
    var channelData := primaryResult.data.(role := Some(ChannelRole));
    totalVideos := totalVideos + VideoCount(channelData);
    var competitorsData: seq<ChannelData> := [];
    for i := 0 to |unique|
      invariant competitorsData == FetchedData(fetch, unique[..i])
      invariant failedChannels == FailedHandles(fetch, unique[..i])
      invariant totalVideos == VideoCount(channelData) + SumVideoCounts(competitorsData)
    {
      var comp := unique[i];
      assert unique[..i + 1][..i] == unique[..i];
      match fetch(comp) {
        case Fetched(d) =>
          var compData := d.(role := Some(CompetitorRole));
          ghost var before := competitorsData;
          competitorsData := competitorsData + [compData];
          assert competitorsData[..|competitorsData| - 1] == before;
          totalVideos := totalVideos + VideoCount(compData);
        case FetchFailed(_) =>
          failedChannels := failedChannels + [comp];
      }
    }
    assert unique[..|unique|] == unique;
    assert FetchStage(channel, unique, days, fetch) == Finish(channelData, competitorsData, failedChannels, days);
    if |competitorsData| < MinCompetitors {
      return Exit(["\nError: only " + Digits(|competitorsData|) + " competitors fetched successfully (need 4)"]);
    }
    var output := RawData(Some(days), channelData, competitorsData);
    var allChannels: nat := 1 + |competitorsData|;
    var quotaEstimate: nat := allChannels * QuotaPerChannel;
    outcome := Completed(output, RunSummary(allChannels, failedChannels, totalVideos, quotaEstimate));
  }
}

/**
 * The web pipeline's orchestration (execution/pipeline.py): `deduplicate_handles` and the
 * validation and fetch steps of `run_pipeline`, ending in an error message or a summary.
 */
module Pipeline {
  import opened Wrappers
  import opened Decimal
  import opened Handles
  import opened Analytics
  import opened Run

  /** The generator's final event: an error message, or the result summary. */
  datatype Outcome = Error(message: string) | Result(raw: RawData, summary: RunSummary)

  /** `deduplicate_handles`: the kept competitors and one warning per skipped one. */
  method DeduplicateHandles(channel: string, competitors: seq<string>)
    returns (uniqueCompetitors: seq<string>, warnings: seq<string>)
    ensures uniqueCompetitors == Unique(channel, competitors)
    ensures warnings == Warnings(channel, competitors)
    ensures |uniqueCompetitors| + |warnings| == |competitors|
  {
    warnings := [];
    var seen := {Normalize(channel)};
    uniqueCompetitors := [];
    for i := 0 to |competitors|
      invariant seen == SeenForms(Normalize, channel, competitors, i)
      invariant uniqueCompetitors == UniqueUpTo(Normalize, channel, competitors, i)
      invariant warnings == WarningsUpTo(Normalize, channel, competitors, i)
    {
      var comp := competitors[i];
      var normalized := Normalize(comp);
      SeenFormsKept(Normalize, channel, competitors, i);
      if normalized in seen {
        warnings := warnings + ["Warning: duplicate handle @" + normalized + " — skipping"];
      } else {
        seen := seen + {normalized};
        uniqueCompetitors := uniqueCompetitors + [comp];
      }
    }
    DedupCount(channel, competitors);
  }

  /** The final event `run_pipeline` yields for the stage a run ends in. */
  function Render(channel: string, stage: Stage): Outcome {
    if stage.Done? then Result(stage.raw, stage.summary) else Error(ErrorMessage(channel, stage))
  }

  /** The message of each error event. */
  function ErrorMessage(channel: string, stage: Stage): string
    requires !stage.Done?
  {
    match stage
    case MissingKey => "YOUTUBE_API_KEY not set in .env file"
    case TooFewCompetitors(n) => "Need at least 4 competitors, got " + Digits(n)
    case TooManyCompetitors(n) => "Max 7 competitors, got " + Digits(n)
    case TooFewUnique(n) => "After deduplication, only " + Digits(n) + " unique competitors remain (need 4)"
    case PrimaryFailed(e) => "Error fetching " + channel + ": " + e + "\nCannot continue without the primary channel."
    case TooFewFetched(n) => "Only " + Digits(n) + " competitors fetched successfully (need 4)"
  }

  /**
   * `run_pipeline` up to its summary: the same checks in the same order, then the fetch
   * of the primary channel and the loop over the surviving competitors that accumulates
   * the fetched data, the failed handles and the video total.
   */
  method RunPipeline(apiKey: Option<string>, channel: string, competitors: seq<string>, days: int,
                     fetch: string -> FetchResult)
    returns (outcome: Outcome)
    ensures outcome == Render(channel, RunOf(apiKey, channel, competitors, days, fetch))
  {
    if apiKey == None || apiKey == Some("") {
      return Error("YOUTUBE_API_KEY not set in .env file");
    }
    if |competitors| < MinCompetitors {
      return Error("Need at least 4 competitors, got " + Digits(|competitors|));
    }
    if |competitors| > MaxCompetitors {
      return Error("Max 7 competitors, got " + Digits(|competitors|));
    }
    var unique, warnings := DeduplicateHandles(channel, competitors);
    if |unique| < MinCompetitors {
      return Error("After deduplication, only " + Digits(|unique|) + " unique competitors remain (need 4)");
    }
    outcome := FetchAndSummarize(channel, unique, days, fetch);
  }

  /**
   * The rest of `run_pipeline`: fetch the primary channel (a failure ends the run), then
   * the competitors; check that at least 4 were fetched, and build the raw data handed to
   * `process_all` and the summary with its quota estimate.
   */
  method FetchAndSummarize(channel: string, unique: seq<string>, days: int, fetch: string -> FetchResult)
    returns (outcome: Outcome)
    ensures outcome == Render(channel, FetchStage(channel, unique, days, fetch))
  {
    var totalVideos: nat := 0;
    var primaryResult := fetch(channel);
    if primaryResult.FetchFailed? {
      assert FetchStage(channel, unique, days, fetch) == PrimaryFailed(primaryResult.reason);
      return Error("Error fetching " + channel + ": " + primaryResult.reason
                   + "\nCannot continue without the primary channel.");
    }
    var channelData := primaryResult.data.(role := Some(ChannelRole));
    totalVideos := totalVideos + VideoCount(channelData);
    var competitorsData, failedChannels;
    competitorsData, failedChannels, totalVideos := FetchCompetitors(unique, fetch, totalVideos);
    assert FetchStage(channel, unique, days, fetch) == Finish(channelData, competitorsData, failedChannels, days);
    if |competitorsData| < MinCompetitors {
      return Error("Only " + Digits(|competitorsData|) + " competitors fetched successfully (need 4)");
    }
    var output := RawData(Some(days), channelData, competitorsData);
    var allChannels: nat := 1 + |competitorsData|;
    var quotaEstimate: nat := allChannels * QuotaPerChannel;
    outcome := Result(output, RunSummary(allChannels, failedChannels, totalVideos, quotaEstimate));
  }

  /**
   * The fetch loop of `run_pipeline`: fetch each surviving competitor in order, keeping
   * the fetched data and adding its videos to the running total, or recording the failure.
   */
  method FetchCompetitors(unique: seq<string>, fetch: string -> FetchResult, totalBefore: nat)
    returns (competitorsData: seq<ChannelData>, failedChannels: seq<string>, totalVideos: nat)
    ensures competitorsData == FetchedData(fetch, unique)
    ensures failedChannels == FailedHandles(fetch, unique)
    ensures totalVideos == totalBefore + SumVideoCounts(competitorsData)
  {
    competitorsData, failedChannels, totalVideos := [], [], totalBefore;
    for i := 0 to |unique|
      invariant competitorsData == FetchedData(fetch, unique[..i])
      invariant failedChannels == FailedHandles(fetch, unique[..i])
      invariant totalVideos == totalBefore + SumVideoCounts(competitorsData)
    {
      var comp := unique[i];
      assert unique[..i + 1][..i] == unique[..i];
      match fetch(comp) {
        case Fetched(d) =>
          var compData := d.(role := Some(CompetitorRole));
          ghost var before := competitorsData;
          competitorsData := competitorsData + [compData];
          assert competitorsData[..|competitorsData| - 1] == before;
          totalVideos := totalVideos + VideoCount(compData);
        case FetchFailed(_) =>
          failedChannels := failedChannels + [comp];
      }
    }
    assert unique[..|unique|] == unique;
  }
}

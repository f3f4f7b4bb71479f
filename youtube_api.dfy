/**
 * The YouTube-side helpers of the fetch layer (execution/youtube_api.py): the ISO 8601
 * duration parser, the Shorts filter, the handle and uploads-playlist rewriting of
 * `resolve_handle`, and the batching loop of `get_video_details`. The Data API and the
 * Shorts HEAD request are function parameters.
 */
module YouTubeApi {
  import opened Wrappers
  import opened Seqs
  import opened Decimal
  import opened Analytics
  import opened Handles

  // ---------------------------------------------------------------------------
  // ISO 8601 durations: the time part `PT#H#M#S`
  // ---------------------------------------------------------------------------

  /** Length of the longest run of ASCII digits at the start of `t`. */
  function DigitRun(t: string): (n: nat)
    ensures n <= |t| && AllDigits(t[..n]) && (n == |t| || !IsDigit(t[n]))
    decreases |t|
  {
    if t != [] && IsDigit(t[0]) then
      var n := 1 + DigitRun(t[1..]);
      assert t[..n] == [t[0]] + t[1..][..n - 1];
      n
    else 0
  }

  /**
   * One optional group `(?:(\d+)X)?` of the pattern, at the start of `t`: the digits and
   * the rest of the text when a digit run is directly followed by `designator`, else
   * no value and `t` itself. The run is the longest one: a shorter run is followed by a
   * digit, never by the designator, so backtracking cannot find another match.
   */
  function Designated(t: string, designator: char): (Option<nat>, string) {
    var k := DigitRun(t);
    if 0 < k < |t| && t[k] == designator then (Some(Value(t[..k])), t[k + 1..]) else (None, t)
  }

  /**
   * `_parse_iso8601_duration`: seconds of a `PT[nH][nM][nS]` prefix, absent groups
   * counting 0; a string not starting with `PT` does not match and gives 0.
   */
  function ParseDuration(duration: string): nat {
    if |duration| >= 2 && duration[..2] == "PT" then ReadGroups(duration[2..]) else 0
  }

  /** The three optional groups after `PT`, read in order. */
  function ReadGroups(t: string): nat {
    var (h, r1) := Designated(t, 'H');
    var (m, r2) := Designated(r1, 'M');
    var (s, _) := Designated(r2, 'S');
    h.GetOr(0) * 3600 + m.GetOr(0) * 60 + s.GetOr(0)
  }

  /** The text of one designated group: the number's digits and the designator, or nothing. */
  function Group(n: Option<nat>, designator: char): string {
    match n
    case None => ""
    case Some(v) => Digits(v) + [designator]
  }

  /** `"PT{h}H{m}M{s}S"` with any of the three groups left out. */
  function FormatDuration(h: Option<nat>, m: Option<nat>, s: Option<nat>): string {
    "PT" + Group(h, 'H') + Group(m, 'M') + Group(s, 'S')
  }

  predicate NoLeadingDigit(t: string) { t == [] || !IsDigit(t[0]) }

  lemma {:induction false} DigitRunOf(ds: string, t: string)
    requires AllDigits(ds) && NoLeadingDigit(t)
    ensures DigitRun(ds + t) == |ds|
    decreases |ds|
  {
    if ds == [] {
      assert ds + t == t;
    } else {
      assert (ds + t)[1..] == ds[1..] + t;
      DigitRunOf(ds[1..], t);
    }
  }

  /** A present group is read back with its value; the rest of the text is what follows it. */
  lemma DesignatedPresent(v: nat, designator: char, rest: string)
    requires !IsDigit(designator)
    ensures Designated(Digits(v) + [designator] + rest, designator) == (Some(v), rest)
  {
    var ds := Digits(v);
    var t := ds + [designator] + rest;
    assert t == ds + ([designator] + rest);
    DigitRunOf(ds, [designator] + rest);
    assert t[..|ds|] == ds;
    assert t[|ds| + 1..] == rest;
    ValueOfDigits(v);
  }

  /** `t` starts with a group for a designator other than `designator`. */
  ghost predicate StartsWithOtherGroup(t: string, designator: char) {
    exists v: nat, c: char, rest :: c != designator && !IsDigit(c) && t == Digits(v) + [c] + rest
  }

  /** An absent group matches nothing when the text goes on with another designator or a non-digit. */
  lemma DesignatedAbsent(t: string, designator: char)
    requires NoLeadingDigit(t) || StartsWithOtherGroup(t, designator)
    ensures Designated(t, designator) == (None, t)
  {
    if !NoLeadingDigit(t) {
      var v: nat, c: char, rest :| c != designator && !IsDigit(c) && t == Digits(v) + [c] + rest;
      assert t == Digits(v) + ([c] + rest);
      DigitRunOf(Digits(v), [c] + rest);
      assert t[|Digits(v)|] == c;
    }
  }

  /** A group followed by text that is fine for designator `d` is again fine for `d`. */
  lemma GroupFollows(n: Option<nat>, c: char, tail: string, d: char)
    requires c != d && !IsDigit(c)
    requires NoLeadingDigit(tail) || StartsWithOtherGroup(tail, d)
    ensures NoLeadingDigit(Group(n, c) + tail) || StartsWithOtherGroup(Group(n, c) + tail, d)
  {
    match n
    case Some(v) =>
      assert Group(n, c) + tail == Digits(v) + [c] + tail;
    case None =>
      assert Group(n, c) + tail == tail;
  }

  /**
   * Round trip: a duration written with any subset of the hour, minute and second groups,
   * in that order, parses to `h*3600 + m*60 + s`, absent groups counting 0; anything after
   * it that does not start with a digit is ignored, since the pattern is anchored only at
   * the start.
   */
  lemma ParseFormatDuration(h: Option<nat>, m: Option<nat>, s: Option<nat>, rest: string)
    requires NoLeadingDigit(rest)
    ensures ParseDuration(FormatDuration(h, m, s) + rest) == h.GetOr(0) * 3600 + m.GetOr(0) * 60 + s.GetOr(0)
  {
    var gh, gm, gs := Group(h, 'H'), Group(m, 'M'), Group(s, 'S');
    var body := gh + (gm + (gs + rest));
    var d := FormatDuration(h, m, s) + rest;
    calc {
      d;
      ("PT" + gh + gm + gs) + rest;
      { AppendAssoc("PT" + gh + gm, gs, rest); }
      ("PT" + gh + gm) + (gs + rest);
      { AppendAssoc("PT" + gh, gm, gs + rest); }
      ("PT" + gh) + (gm + (gs + rest));
      { AppendAssoc("PT", gh, gm + (gs + rest)); }
      "PT" + body;
    }
    assert d[..2] == "PT" && d[2..] == body;
    ReadGroupsOf(h, m, s, rest);
  }

  lemma AppendAssoc<T>(a: seq<T>, b: seq<T>, c: seq<T>)
    ensures (a + b) + c == a + (b + c)
  {
  }

  lemma ReadGroupsOf(h: Option<nat>, m: Option<nat>, s: Option<nat>, rest: string)
    requires NoLeadingDigit(rest)
    ensures ReadGroups(Group(h, 'H') + (Group(m, 'M') + (Group(s, 'S') + rest)))
              == h.GetOr(0) * 3600 + m.GetOr(0) * 60 + s.GetOr(0)
  {
    var t2 := Group(s, 'S') + rest;
    var t1 := Group(m, 'M') + t2;
    // Each group is read when present and skipped when absent.
    GroupFollows(s, 'S', rest, 'H');
    GroupFollows(m, 'M', t2, 'H');
    GroupFollows(s, 'S', rest, 'M');
    GroupStep(h, 'H', t1);
    GroupStep(m, 'M', t2);
    GroupStep(s, 'S', rest);
  }

  /**
   * One step of the round trip: `Group(n, d) + next` reads as `(n, next)`, provided `next`
   * starts with a designator other than `d` (the next group), with a non-digit, or is empty.
   */
  lemma GroupStep(n: Option<nat>, designator: char, next: string)
    requires !IsDigit(designator)
    ensures (NoLeadingDigit(next) || StartsWithOtherGroup(next, designator))
              ==> Designated(Group(n, designator) + next, designator) == (n, next)
  {
    if NoLeadingDigit(next) || StartsWithOtherGroup(next, designator) {
      var t := Group(n, designator) + next;
      match n
      case Some(v) =>
        assert t == Digits(v) + [designator] + next;
        DesignatedPresent(v, designator, next);
      case None =>
        assert t == next;
        DesignatedAbsent(next, designator);
    }
  }

  /** Text not starting with `PT` does not match: durations with a day part such as `P1DT2H` give 0. */
  lemma ParseDurationNoMatch(duration: string)
    requires |duration| < 2 || duration[..2] != "PT"
    ensures ParseDuration(duration) == 0
  {
  }

  lemma ParseDurationDayPart()
    ensures ParseDuration("P1DT2H") == 0
  {
    assert "P1DT2H"[1] == '1';
    ParseDurationNoMatch("P1DT2H");
  }

  // ---------------------------------------------------------------------------
  // Shorts filter
  // ---------------------------------------------------------------------------

  /** Videos longer than three minutes are long-form without further checking. */
  const ShortsMaxSeconds := 180

  predicate IsLong(v: Video) { v.durationSeconds > ShortsMaxSeconds }

  predicate IsCandidate(v: Video) { !IsLong(v) }

  /** The candidates the Shorts check rejects, in order. */
  function NotShorts(candidates: seq<Video>, isShort: string -> bool): seq<Video>
    decreases |candidates|
  {
    if candidates == [] then []
    else (if isShort(candidates[0].videoId) then [] else [candidates[0]]) + NotShorts(candidates[1..], isShort)
  }

  lemma {:induction false} NotShortsSnoc(candidates: seq<Video>, v: Video, isShort: string -> bool)
    ensures NotShorts(candidates + [v], isShort)
              == NotShorts(candidates, isShort) + (if isShort(v.videoId) then [] else [v])
    decreases |candidates|
  {
    if candidates == [] {
      assert [v][1..] == [];
    } else {
      assert (candidates + [v])[1..] == candidates[1..] + [v];
      NotShortsSnoc(candidates[1..], v, isShort);
    }
  }

  lemma {:induction false} NotShortsMultiset(candidates: seq<Video>, isShort: string -> bool)
    ensures multiset(NotShorts(candidates, isShort)) <= multiset(candidates)
    ensures forall v :: v in candidates && !isShort(v.videoId) <==> v in NotShorts(candidates, isShort)
    decreases |candidates|
  {
    if candidates != [] {
      NotShortsMultiset(candidates[1..], isShort);
      assert candidates == [candidates[0]] + candidates[1..];
    }
  }

  /** The filter's result: long-form videos in order, then the candidates that are not Shorts. */
  function ShortsFiltered(videos: seq<Video>, isShort: string -> bool): seq<Video> {
    Filter(IsLong, videos) + NotShorts(Filter(IsCandidate, videos), isShort)
  }

  /**
   * `_filter_shorts`: the first loop splits the videos at 180 seconds, the second asks
   * `isShort` about each short candidate and keeps those it rejects, counting the others.
   */
  method FilterShorts(videos: seq<Video>, isShort: string -> bool) returns (longForm: seq<Video>, shortsCount: nat)
    ensures longForm == ShortsFiltered(videos, isShort)
    ensures |longForm| + shortsCount == |videos|
  {
    longForm := [];
    var toCheck: seq<Video> := [];
    var i := 0;
    while i < |videos|
      invariant 0 <= i <= |videos|
      invariant longForm == Filter(IsLong, videos[..i])
      invariant toCheck == Filter(IsCandidate, videos[..i])
      invariant |longForm| + |toCheck| == i
    {
      var v := videos[i];
      FilterPrefixStep(IsLong, videos, i);
      FilterPrefixStep(IsCandidate, videos, i);
      if v.durationSeconds > 180 {
        longForm := longForm + [v];
      } else {
        toCheck := toCheck + [v];
      }
      i := i + 1;
    }
    assert videos[..i] == videos;
    ghost var long := longForm;
    ghost var candidates := toCheck;
    assert long == Filter(IsLong, videos) && candidates == Filter(IsCandidate, videos);
    var longCount := |longForm|;
    shortsCount := 0;
    var j := 0;
    while j < |toCheck|
      invariant 0 <= j <= |toCheck| && toCheck == candidates
      invariant longForm == long + NotShorts(candidates[..j], isShort)
      invariant |longForm| + shortsCount == longCount + j
      invariant |longForm| + shortsCount + |candidates| - j == |videos|
    {
      var v := toCheck[j];
      ghost var kept := NotShorts(candidates[..j], isShort);
      NotShortsStep(candidates, j, isShort);
      AppendAssoc(long, kept, [v]);
      if isShort(v.videoId) {
        shortsCount := shortsCount + 1;
      } else {
        longForm := longForm + [v];
      }
      j := j + 1;
    }
    assert candidates[..j] == candidates;
  }

  lemma NotShortsStep(candidates: seq<Video>, j: nat, isShort: string -> bool)
    requires j < |candidates|
    ensures NotShorts(candidates[..j + 1], isShort)
              == NotShorts(candidates[..j], isShort) + (if isShort(candidates[j].videoId) then [] else [candidates[j]])
  {
    assert candidates[..j + 1] == candidates[..j] + [candidates[j]];
    NotShortsSnoc(candidates[..j], candidates[j], isShort);
  }

  /** Every video is either long-form or a candidate, never both. */
  lemma {:induction false} LongCandidatePartition(videos: seq<Video>)
    ensures multiset(Filter(IsLong, videos)) + multiset(Filter(IsCandidate, videos)) == multiset(videos)
    decreases |videos|
  {
    if videos != [] {
      LongCandidatePartition(videos[1..]);
      assert videos == [videos[0]] + videos[1..];
    }
  }

  /**
   * The filter never adds or duplicates a video, keeps every video over 180 seconds, drops
   * every video of 180 seconds or less that the check reports as a Short, and keeps the
   * others.
   */
  lemma ShortsFilteredCorrect(videos: seq<Video>, isShort: string -> bool)
    ensures multiset(ShortsFiltered(videos, isShort)) <= multiset(videos)
    ensures forall v :: v in videos && v.durationSeconds > 180 ==> v in ShortsFiltered(videos, isShort)
    ensures forall v :: v in ShortsFiltered(videos, isShort) && v.durationSeconds <= 180 ==> !isShort(v.videoId)
    ensures forall v :: v in videos && v.durationSeconds <= 180 && !isShort(v.videoId) ==> v in ShortsFiltered(videos, isShort)
  {
    var cands := Filter(IsCandidate, videos);
    var r := ShortsFiltered(videos, isShort);
    LongCandidatePartition(videos);
    NotShortsMultiset(cands, isShort);
    FilterMultiset(IsLong, videos);
    FilterMultiset(IsCandidate, videos);
    assert multiset(r) == multiset(Filter(IsLong, videos)) + multiset(NotShorts(cands, isShort));
    forall v | v in r && v.durationSeconds <= 180 ensures !isShort(v.videoId) {
      assert v !in Filter(IsLong, videos);
      assert v in NotShorts(cands, isShort);
    }
    forall v | v in videos && v.durationSeconds <= 180 && !isShort(v.videoId) ensures v in r {
      assert v in cands;
    }
  }

  // ---------------------------------------------------------------------------
  // Channel resolution
  // ---------------------------------------------------------------------------

  predicate StartsWith(s: string, prefix: string) { |prefix| <= |s| && s[..|prefix|] == prefix }

  /** The uploads playlist of a channel: a `UC` prefix of the playlist id becomes `UU`. */
  function UploadsPlaylistId(id: string): (r: string)
    ensures |r| == |id|
    ensures StartsWith(id, "UC") ==> StartsWith(r, "UU") && r[2..] == id[2..]
    ensures !StartsWith(id, "UC") ==> r == id
  {
    if StartsWith(id, "UC") then "UU" + id[2..] else id
  }

  /** Rewriting an already rewritten id changes nothing. */
  lemma UploadsPlaylistIdIdempotent(id: string)
    ensures UploadsPlaylistId(UploadsPlaylistId(id)) == UploadsPlaylistId(id)
  {
    var r := UploadsPlaylistId(id);
    if StartsWith(id, "UC") {
      assert r[..2] == "UU";
    }
  }

  /** The subscriber statistic: hidden, a known count, or text `int` rejects. */
  datatype SubscriberStat = Hidden | Known(count: nat) | Unparsable

  /** `int(sub_count) if sub_count else None`, for ASCII digit strings. */
  function SubscriberCount(stat: Option<string>): (r: SubscriberStat)
    ensures (stat == None || stat == Some("")) <==> r == Hidden
  {
    match stat
    case None => Hidden
    case Some(t) =>
      if t == "" then Hidden
      else if AllDigits(t) then Known(Value(t))
      else Unparsable
  }

  /** A reported count written in decimal reads back as that count. */
  lemma SubscriberCountOfDigits(n: nat)
    ensures SubscriberCount(Some(Digits(n))) == Known(n)
  {
    ValueOfDigits(n);
  }

  /** The fields `resolve_handle` reads from the first matching channel. */
  datatype ApiChannel = ApiChannel(
    id: string,
    title: string,
    subscriberCount: Option<string>,
    viewCount: Option<nat>,
    uploads: string)

  datatype ChannelInfo = ChannelInfo(
    channelId: string,
    title: string,
    subscriberCount: Option<nat>,
    totalViews: nat,
    uploadsPlaylistId: string)

  datatype ResolveError = NotFound(message: string) | BadSubscriberCount

  datatype Resolved = Found(info: ChannelInfo) | Failed(error: ResolveError)

  /**
   * `resolve_handle` with the channel lookup as a parameter: the handle loses its leading
   * `@` signs, an empty lookup is an error naming the handle, and otherwise the first item
   * gives the channel's fields, its view count defaulting to 0.
   */
  function ResolveHandle(handle: string, lookup: string -> seq<ApiChannel>): (r: Resolved)
    ensures lookup(StripAt(handle)) == [] <==> r == Failed(NotFound("Channel not found for handle: @" + StripAt(handle)))
    ensures lookup(StripAt(handle)) != [] ==>
              var c := lookup(StripAt(handle))[0];
              && (SubscriberCount(c.subscriberCount) == Unparsable <==> r == Failed(BadSubscriberCount))
              && (r.Found? ==>
                    && r.info.channelId == c.id
                    && r.info.title == c.title
                    && (SubscriberCount(c.subscriberCount) == Hidden ==> r.info.subscriberCount == None)
                    && (forall n: nat :: SubscriberCount(c.subscriberCount) == Known(n) ==> r.info.subscriberCount == Some(n))
                    && r.info.totalViews == c.viewCount.GetOr(0)
                    && r.info.uploadsPlaylistId == UploadsPlaylistId(c.uploads))
  {
    var h := StripAt(handle);
    var items := lookup(h);
    if items == [] then Failed(NotFound("Channel not found for handle: @" + h))
    else
      var c := items[0];
      match SubscriberCount(c.subscriberCount)
      case Unparsable => Failed(BadSubscriberCount)
      case Hidden => Found(ChannelInfo(c.id, c.title, None, c.viewCount.GetOr(0), UploadsPlaylistId(c.uploads)))
      case Known(n) => Found(ChannelInfo(c.id, c.title, Some(n), c.viewCount.GetOr(0), UploadsPlaylistId(c.uploads)))
  }

  // ---------------------------------------------------------------------------
  // Video details in batches of 50
  // ---------------------------------------------------------------------------

  const BatchSize := 50

  /** The consecutive chunks `ids[i:i+50]` for `i` in `range(0, len(ids), 50)`. */
  function Chunks(ids: seq<string>): seq<seq<string>>
    decreases |ids|
  {
    if ids == [] then []
    else if |ids| <= BatchSize then [ids]
    else [ids[..BatchSize]] + Chunks(ids[BatchSize..])
  }

  function Flatten<T>(ss: seq<seq<T>>): seq<T>
    decreases |ss|
  {
    if ss == [] then [] else ss[0] + Flatten(ss[1..])
  }

  /**
   * The batches concatenate back to the ids; all but the last hold exactly 50 ids, the
   * last between 1 and 50, and there are `ceil(len / 50)` of them.
   */
  lemma {:induction false} ChunksCorrect(ids: seq<string>)
    ensures Flatten(Chunks(ids)) == ids
    ensures forall k :: 0 <= k < |Chunks(ids)| ==> 1 <= |Chunks(ids)[k]| <= 50
    ensures forall k :: 0 <= k < |Chunks(ids)| - 1 ==> |Chunks(ids)[k]| == 50
    ensures |Chunks(ids)| == (|ids| + 49) / 50
    decreases |ids|
  {
    if |ids| > BatchSize {
      ChunksCorrect(ids[BatchSize..]);
      var c := Chunks(ids);
      assert c[1..] == Chunks(ids[BatchSize..]);
      assert ids == ids[..BatchSize] + ids[BatchSize..];
      forall k | 1 <= k < |c| ensures c[k] == Chunks(ids[BatchSize..])[k - 1] {
      }
    } else if ids != [] {
      assert Flatten([ids]) == ids + Flatten([]);
    }
  }

  /** The video fields `get_video_details` reads from one returned item. */
  datatype ApiVideo = ApiVideo(
    id: string,
    title: string,
    publishedAt: string,
    viewCount: Option<nat>,
    likeCount: Option<nat>,
    commentCount: Option<nat>,
    duration: string)

  /** One result record: id, title and date copied, missing statistics count 0, the duration is parsed. */
  function VideoRecord(item: ApiVideo): (v: Video)
    ensures v.videoId == item.id && v.title == item.title && v.publishedAt == item.publishedAt
    ensures item.viewCount == None ==> v.views == 0
    ensures item.likeCount == None ==> v.likes == 0
    ensures item.commentCount == None ==> v.comments == 0
    ensures forall n :: item.viewCount == Some(n) ==> v.views == n
    ensures forall n :: item.likeCount == Some(n) ==> v.likes == n
    ensures forall n :: item.commentCount == Some(n) ==> v.comments == n
    ensures v.durationSeconds == ParseDuration(item.duration)
  {
    Video(item.id, item.title, item.publishedAt, item.viewCount.GetOr(0), item.likeCount.GetOr(0),
          item.commentCount.GetOr(0), ParseDuration(item.duration))
  }

  /** The records of each batch's response, batch after batch. */
  function Details(chunks: seq<seq<string>>, lookup: seq<string> -> seq<ApiVideo>): seq<Video>
    decreases |chunks|
  {
    if chunks == [] then [] else Map(VideoRecord, lookup(chunks[0])) + Details(chunks[1..], lookup)
  }

  lemma {:induction false} DetailsConcat(a: seq<seq<string>>, b: seq<seq<string>>, lookup: seq<string> -> seq<ApiVideo>)
    ensures Details(a + b, lookup) == Details(a, lookup) + Details(b, lookup)
    decreases |a|
  {
    if a == [] {
      assert a + b == b;
    } else {
      assert (a + b)[1..] == a[1..] + b;
      DetailsConcat(a[1..], b, lookup);
    }
  }

  lemma {:induction false} ChunksFrom(ids: seq<string>, i: nat)
    requires i <= |ids| && i % BatchSize == 0
    ensures i < |ids| ==> Chunks(ids[i..]) == [ids[i..Min(i + BatchSize, |ids|)]] + Chunks(ids[Min(i + BatchSize, |ids|)..])
  {
    if i < |ids| && |ids| - i <= BatchSize {
      assert ids[|ids|..] == [];
      assert ids[i..|ids|] == ids[i..];
    } else if i < |ids| {
      assert ids[i..][..BatchSize] == ids[i..i + BatchSize];
      assert ids[i..][BatchSize..] == ids[i + BatchSize..];
    }
  }

  /** The details of the ids from `i` on are those of the batch at `i`, then those of the rest. */
  lemma DetailsStep(ids: seq<string>, i: nat, lookup: seq<string> -> seq<ApiVideo>)
    requires i < |ids| && i % BatchSize == 0
    ensures Details(Chunks(ids[i..]), lookup)
              == Map(VideoRecord, lookup(ids[i..Min(i + BatchSize, |ids|)])) + Details(Chunks(ids[Min(i + BatchSize, |ids|)..]), lookup)
  {
    var end := Min(i + BatchSize, |ids|);
    var batch := ids[i..end];
    ChunksFrom(ids, i);
    DetailsConcat([batch], Chunks(ids[end..]), lookup);
    assert [batch][1..] == [];
    assert Details([batch], lookup) == Map(VideoRecord, lookup(batch)) + Details([], lookup);
  }

  /**
   * `get_video_details` with the Data API's `videos.list` as `lookup`: it asks for the ids
   * in consecutive batches of at most 50 and concatenates the records of the responses.
   */
  method GetVideoDetails(ids: seq<string>, lookup: seq<string> -> seq<ApiVideo>) returns (results: seq<Video>)
    ensures results == Details(Chunks(ids), lookup)
  {
    if ids == [] {
      return [];
    }
    results := [];
    ghost var total := Details(Chunks(ids), lookup);
    var i := 0;
    assert ids[0..] == ids;
    while i < |ids|
      invariant 0 <= i <= |ids| && (i == |ids| || i % BatchSize == 0)
      invariant results + Details(Chunks(ids[i..]), lookup) == total
      decreases |ids| - i
    {
      var end := Min(i + BatchSize, |ids|);
      var records := Map(VideoRecord, lookup(ids[i..end]));
      ghost var tail := Details(Chunks(ids[end..]), lookup);
      DetailsStep(ids, i, lookup);
      AppendAssoc(results, records, tail);
      results := results + records;
      i := end;
    }
    assert ids[i..] == [];
    assert results + [] == results;
  }
}

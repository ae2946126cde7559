/// The in-memory "latest ingested" log shown on the home page: a bounded
/// queue of finished-video events, newest first, and per-video download
/// counters that give each event its average download speed.
module IngestLog {
  import opened Common

  const U64_MAX: nat := 0xFFFF_FFFF_FFFF_FFFF

  /// The capacity of the process-wide log.
  const GLOBAL_MAX_LEN: nat := 200

  datatype IngestStatus = Success | Failed | Deleted

  datatype IngestEvent = IngestEvent(
    videoId: int,
    videoName: string,
    upperName: string,
    path: string,
    ingestedAt: string,
    downloadSpeedBps: Option<nat>,
    status: IngestStatus)

  /// Bytes and milliseconds downloaded so far for one video, both `u64`.
  datatype Accumulator = Accumulator(bytes: nat, millis: nat)

  /// `u64::saturating_add`.
  function SaturatingAdd(a: nat, b: nat): (r: nat)
    requires a <= U64_MAX
    ensures r <= U64_MAX && r >= a
    ensures r == a + b || r == U64_MAX
    ensures a + b <= U64_MAX ==> r == a + b
  {
    if a + b > U64_MAX then U64_MAX else a + b
  }

  predicate InRange(acc: Accumulator)
  {
    acc.bytes <= U64_MAX && acc.millis <= U64_MAX
  }

  /// `Accumulator::add`: both counters saturate at `u64::MAX` instead of
  /// wrapping; the elapsed milliseconds are first clamped to `u64::MAX`.
  function Add(acc: Accumulator, bytes: nat, elapsedMillis: nat): (r: Accumulator)
    requires bytes <= U64_MAX && InRange(acc)
    ensures InRange(r)
    ensures r.bytes >= acc.bytes && r.millis >= acc.millis
    ensures acc.bytes + bytes <= U64_MAX ==> r.bytes == acc.bytes + bytes
    ensures acc.bytes + bytes > U64_MAX ==> r.bytes == U64_MAX
    ensures acc.millis + elapsedMillis <= U64_MAX ==> r.millis == acc.millis + elapsedMillis
    ensures acc.millis + elapsedMillis > U64_MAX ==> r.millis == U64_MAX
  {
    var clamped := if elapsedMillis < U64_MAX then elapsedMillis else U64_MAX;
    Accumulator(SaturatingAdd(acc.bytes, bytes), SaturatingAdd(acc.millis, clamped))
  }

  /// `avg_bps`: bytes per second, absent when nothing was downloaded or no
  /// time was measured. The quotient is taken exactly and, like the cast back
  /// to `u64`, saturates at `u64::MAX`.
  function AvgBps(acc: Accumulator): (r: Option<nat>)
    ensures r.None? <==> acc.bytes == 0 || acc.millis == 0
    ensures r.Some? ==> r.value <= U64_MAX
    ensures r.Some? && r.value < U64_MAX ==>
              r.value * acc.millis <= acc.bytes * 1000 < (r.value + 1) * acc.millis
  {
    if acc.bytes == 0 || acc.millis == 0 then None
    else
      var q := acc.bytes * 1000 / acc.millis;
      Some(if q < U64_MAX then q else U64_MAX)
  }

  /// A sample that brings at least one byte and one millisecond makes the
  /// speed defined, however the counters stood before.
  lemma SampleDefinesSpeed(acc: Accumulator, bytes: nat, elapsedMillis: nat)
    requires bytes <= U64_MAX && InRange(acc)
    requires bytes > 0 && elapsedMillis > 0
    ensures AvgBps(Add(acc, bytes, elapsedMillis)).Some?
  {
  }

  /// The queue after pushing `event` at the front and dropping from the back
  /// until at most `maxLen` remain.
  function Pushed(events: seq<IngestEvent>, event: IngestEvent, maxLen: nat): (r: seq<IngestEvent>)
    ensures |r| <= maxLen
    ensures |r| == if |events| + 1 <= maxLen then |events| + 1 else maxLen
    ensures forall i :: 0 <= i < |r| ==> r[i] == ([event] + events)[i]
  {
    var all := [event] + events;
    if |all| <= maxLen then all else all[..maxLen]
  }

  /// `list_latest`: the first `limit` events, newest first.
  function Latest(events: seq<IngestEvent>, limit: nat): (r: seq<IngestEvent>)
    ensures |r| == if limit <= |events| then limit else |events|
    ensures r <= events
  {
    if limit <= |events| then events[..limit] else events
  }

  /// Finishing a video makes it the newest event: the latest `k` are it
  /// followed by the `k - 1` that were latest before, as long as `k` is
  /// within the capacity.
  lemma LatestAfterPush(events: seq<IngestEvent>, event: IngestEvent, maxLen: nat, k: nat)
    requires 1 <= k <= maxLen
    ensures Latest(Pushed(events, event, maxLen), k) == [event] + Latest(events, k - 1)
  {
    var r := Latest(Pushed(events, event, maxLen), k);
    var s := [event] + Latest(events, k - 1);
    assert |r| == |s|;
    forall i | 0 <= i < |r|
      ensures r[i] == s[i]
    {
      if i > 0 {
        assert s[i] == events[i - 1];
      }
    }
  }

  class IngestLog {
    const maxLen: nat
    /// Newest first.
    var events: seq<IngestEvent>
    var accumulators: map<int, Accumulator>

    ghost predicate Valid()
      reads this
    {
      |events| <= maxLen &&
      forall id :: id in accumulators ==> InRange(accumulators[id])
    }

    /// `IngestLog::new`.
    constructor (maxLen: nat)
      ensures Valid()
      ensures this.maxLen == maxLen && events == [] && accumulators == map[]
    {
      this.maxLen := maxLen;
      events := [];
      accumulators := map[];
    }

    /// `add_download_sample`: adds to the counters of `videoId`, starting
    /// them at zero; no other video's counters change.
    method AddDownloadSample(videoId: int, bytes: nat, elapsedMillis: nat)
      requires Valid() && bytes <= U64_MAX
      modifies this
      ensures Valid()
      ensures events == old(events)
      ensures videoId in accumulators
      ensures var before := if videoId in old(accumulators) then old(accumulators)[videoId] else Accumulator(0, 0);
              accumulators[videoId] == Add(before, bytes, elapsedMillis)
      ensures forall id :: id != videoId ==>
                (id in accumulators <==> id in old(accumulators)) &&
                (id in accumulators ==> accumulators[id] == old(accumulators)[id])
    {
      var entry := if videoId in accumulators then accumulators[videoId] else Accumulator(0, 0);
      accumulators := accumulators[videoId := Add(entry, bytes, elapsedMillis)];
    }

    /// `finish_video`: consumes the video's counters into its average
    /// speed, pushes the event at the front and drops the oldest events
    /// beyond the capacity. `now` is the formatted clock.
    method FinishVideo(videoId: int, videoName: string, upperName: string, path: string,
                       status: IngestStatus, now: string)
      requires Valid()
      modifies this
      ensures Valid()
      ensures accumulators == old(accumulators) - {videoId}
      ensures var speed := if videoId in old(accumulators) then AvgBps(old(accumulators)[videoId]) else None;
              events == Pushed(old(events), IngestEvent(videoId, videoName, upperName, path, now, speed, status), maxLen)
    {
      var speed: Option<nat> := None;
      if videoId in accumulators {
        speed := AvgBps(accumulators[videoId]);
      }
      accumulators := accumulators - {videoId};
      var event := IngestEvent(videoId, videoName, upperName, path, now, speed, status);
      var all := [event] + events;
      events := all;
      while |events| > maxLen
        invariant |events| <= |all| && events == all[..|events|]
        invariant |all| <= maxLen + 1
        invariant events == all || |events| >= maxLen
        invariant accumulators == old(accumulators) - {videoId}
        decreases |events|
      {
        events := events[..|events| - 1];
      }
      assert |events| == if |all| <= maxLen then |all| else maxLen;
    }

    /// `list_latest`: reading never changes the log.
    function ListLatest(limit: nat): (r: seq<IngestEvent>)
      reads this
      ensures r == Latest(events, limit)
    {
      events[..if limit <= |events| then limit else |events|]
    }
  }
}

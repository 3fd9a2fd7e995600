/** The two background collectors of data_collection.py. Each worker thread is modelled by one method
    that runs over the finite trace of what the thread handled before it saw the stop flag set. */
module Collectors {
  import opened Wrappers
  import opened Sequences
  import opened Text
  import opened Telemetry
  import opened Streams

  /** `TIMEOUT_SEC`: the request timeout, also recorded as the latency of a timed-out request. */
  const TIMEOUT_SEC: int := 9

  const Alphabet: string := "abcdefghijklmnopqrstuvwxyz"

  /** What one `requests.post` did: answered after `elapsed` seconds, raised `ReadTimeout`, or raised
      any other exception (which nothing catches). */
  datatype Response = Responded(elapsed: real) | ReadTimeout | RequestFailed

  /** One loop iteration's inputs: the indices `random.choices` draws, the clock at send time, the response. */
  datatype RequestOutcome = RequestOutcome(draw: nat -> nat, start: real, response: Response)

  /** One latency record: the keys `id`, `msg_length`, `latency`, `start`. */
  datatype LatencyRecord = LatencyRecord(id: nat, msgLength: int, latency: real, start: real)

  /** The `RuntimeError`s of the thread lifecycle: a second `stop_collecting`, a `join` of a thread that
      was never started, and a second `Thread.start`. */
  datatype LifecycleError = AlreadyStopped | NotStarted | AlreadyStarted

  /** `"".join(random.choices(string.ascii_lowercase, k=k))`, the `i`-th letter picked by `draw(i)`. */
  function RandomMessage(k: int, draw: nat -> nat): (msg: string)
    ensures |msg| == Max(0, k)
    ensures forall i :: 0 <= i < |msg| ==> IsLowercase(msg[i])
  {
    seq(Max(0, k), (i: int) requires 0 <= i => Alphabet[draw(i) % 26])
  }

  class ClientPerfCollector {
    const url: string
    const messageLength: int
    /** Whether `collector_thread` has been started. */
    var started: bool
    /** `stop_event`: set once by `stop_collecting`. */
    var stopEvent: bool
    var data: seq<LatencyRecord>

    constructor (clientUrl: string, msgLength: int := 5)
      ensures url == clientUrl && messageLength == msgLength
      ensures !started && !stopEvent && data == []
    {
      url := clientUrl;
      messageLength := msgLength;
      started := false;
      stopEvent := false;
      data := [];
    }

    /** `start_collecting`: `Thread.start` raises on a second call. */
    method StartCollecting() returns (r: Result<(), LifecycleError>)
      modifies this`started
      ensures started
      ensures old(started) ==> r == Failure(AlreadyStarted)
      ensures !old(started) ==> r == Success(())
    {
      if started {
        return Failure(AlreadyStarted);
      }
      started := true;
      r := Success(());
    }

    /** `stop_collecting`: a second call is rejected and changes nothing; the first sets the flag and,
        once the worker has been joined, hands back its data, unless the thread was never started. */
    method StopCollecting() returns (r: Result<seq<LatencyRecord>, LifecycleError>)
      modifies this`stopEvent
      ensures stopEvent && data == old(data)
      ensures old(stopEvent) ==> r == Failure(AlreadyStopped)
      // the flag is set before `join`, which raises on a thread that was never started
      ensures !old(stopEvent) && !started ==> r == Failure(NotStarted)
      ensures !old(stopEvent) && started ==> r == Success(data)
    {
      if stopEvent {
        return Failure(AlreadyStopped);
      }
      stopEvent := true;
      if !started {
        return Failure(NotStarted);
      }
      r := Success(data);
    }

    /** `load_continuous`, run over the requests the loop issued while the flag was clear. `sent` holds
        the posted messages; `finished` is false when an uncaught exception ended the thread. With the
        flag already set the loop runs no iteration, and the empty record list is stored. */
    method LoadContinuous(outcomes: seq<RequestOutcome>) returns (sent: seq<string>, finished: bool)
      modifies this`data
      ensures stopEvent ==> sent == [] && finished && data == []
      ensures !stopEvent ==> (finished <==> forall i :: 0 <= i < |outcomes| ==> !outcomes[i].response.RequestFailed?)
      ensures !stopEvent && finished ==> |sent| == |outcomes|
      ensures !finished ==> 0 < |sent| <= |outcomes| && outcomes[|sent| - 1].response.RequestFailed?
      ensures forall i :: 0 <= i < |sent| - 1 ==> !outcomes[i].response.RequestFailed?
      ensures |sent| <= |outcomes|
      ensures forall i :: 0 <= i < |sent| ==> sent[i] == RandomMessage(messageLength, outcomes[i].draw)
      // the record list is stored only when the loop ends normally
      ensures !finished ==> data == old(data)
      ensures finished ==> |data| == |sent|
      ensures finished ==> forall i :: 0 <= i < |data| ==>
                && data[i].id == i
                && data[i].msgLength == messageLength
                && data[i].start == outcomes[i].start
                && (outcomes[i].response.Responded? ==> data[i].latency == outcomes[i].response.elapsed)
                && (outcomes[i].response.ReadTimeout? ==> data[i].latency == TIMEOUT_SEC as real)
    {
      var records: seq<LatencyRecord> := [];
      var requestId: nat := 0;
      sent := [];
      // `while not self.stop_event.is_set()`: the flag is clear for exactly these iterations
      while !stopEvent && requestId < |outcomes|
        invariant requestId <= |outcomes|
        invariant stopEvent ==> requestId == 0
        invariant |records| == requestId && |sent| == requestId
        invariant forall i :: 0 <= i < requestId ==> !outcomes[i].response.RequestFailed?
        invariant forall i :: 0 <= i < requestId ==> sent[i] == RandomMessage(messageLength, outcomes[i].draw)
        invariant forall i :: 0 <= i < requestId ==>
                    && records[i].id == i
                    && records[i].msgLength == messageLength
                    && records[i].start == outcomes[i].start
                    && (outcomes[i].response.Responded? ==> records[i].latency == outcomes[i].response.elapsed)
                    && (outcomes[i].response.ReadTimeout? ==> records[i].latency == TIMEOUT_SEC as real)
      {
        var outcome := outcomes[requestId];
        var msg := RandomMessage(messageLength, outcome.draw);
        sent := sent + [msg];
        var elapsed: real;
        match outcome.response {
          case RequestFailed =>
            return sent, false;
          case ReadTimeout =>
            elapsed := TIMEOUT_SEC as real;
          case Responded(e) =>
            elapsed := e;
        }
        records := records + [LatencyRecord(requestId, messageLength, elapsed, outcome.start)];
        requestId := requestId + 1;
      }
      data := records;
      finished := true;
    }
  }

  class DockerStatCollector {
    /** `datetime.fromisoformat(...).timestamp()`. */
    const parseTime: string -> real
    var containers: Option<seq<string>>
    var numContainers: nat
    var started: bool
    var stopEvent: bool
    var data: seq<Sample>

    /** `num_containers` is the length of the container list, or 0 while none is set. */
    ghost predicate Valid()
      reads this
    {
      numContainers == if containers.None? then 0 else |containers.value|
    }

    constructor (timeParser: string -> real)
      ensures Valid() && parseTime == timeParser
      ensures containers == None && !started && !stopEvent && data == []
    {
      parseTime := timeParser;
      containers := None;
      numContainers := 0;
      started := false;
      stopEvent := false;
      data := [];
    }

    /** `set_containers`. */
    method SetContainers(cs: seq<string>)
      modifies this`containers, this`numContainers
      ensures Valid() && containers == Some(cs) && numContainers == |cs|
    {
      containers := Some(cs);
      numContainers := |cs|;
    }

    /** `start_collecting`, with the same start-once rule as the load collector. */
    method StartCollecting() returns (r: Result<(), LifecycleError>)
      modifies this`started
      ensures started
      ensures old(started) ==> r == Failure(AlreadyStarted)
      ensures !old(started) ==> r == Success(())
    {
      if started {
        return Failure(AlreadyStarted);
      }
      started := true;
      r := Success(());
    }

    /** `stop_collecting`, with the same one-shot rule as the load collector. */
    method StopCollecting() returns (r: Result<seq<Sample>, LifecycleError>)
      modifies this`stopEvent
      ensures stopEvent && data == old(data)
      ensures old(stopEvent) ==> r == Failure(AlreadyStopped)
      // the flag is set before `join`, which raises on a thread that was never started
      ensures !old(stopEvent) && !started ==> r == Failure(NotStarted)
      ensures !old(stopEvent) && started ==> r == Success(data)
    {
      if stopEvent {
        return Failure(AlreadyStopped);
      }
      stopEvent := true;
      if !started {
        return Failure(NotStarted);
      }
      r := Success(data);
    }

    /** `collect` over the first `consumed` items of `stream_generator`. `polled` are the listing loop's
        one-shot snapshots; `streams[k]` is the live stream of the k-th container. Either the flag is seen
        set after the last consumed item, or `raised`: the generator's next step raised an exception that
        nothing catches (from `cont.stats` on line 123, from reading a live stream, or a listing error
        other than `APIError`). Any exception (also from `extract`, or the division by a zero container
        count) ends the thread and leaves `data` as it was. With the flag already set the generator is
        never started and the slice of the empty list is stored. */
    method Collect(polled: seq<seq<Snapshot>>, streams: seq<seq<Snapshot>>, consumed: nat, raised: bool)
        returns (finished: bool)
      requires Valid()
      requires |streams| == numContainers
      requires consumed <= TotalLength(polled) + TotalLength(streams)
      modifies this`data
      ensures var r := Collected(parseTime, Handled(polled, streams, consumed, stopEvent), numContainers);
              && finished == (r.Success? && (stopEvent || !raised))
              && data == if finished then r.value else old(data)
    {
      var points := Handled(polled, streams, consumed, stopEvent);
      var kept: seq<Sample> := [];
      var i := 0;
      while i < |points|
        invariant i <= |points|
        invariant ExtractAll(parseTime, points[..i]) == Success(kept)
        invariant data == old(data)
      {
        var point := Extract(parseTime, points[i]);
        ExtractAllStep(parseTime, points, i, kept);
        if point.Failure? {
          ExtractAllFailureSticks(parseTime, points, i + 1);
          assert Collected(parseTime, points, numContainers).Failure?;
          return false;
        }
        if point.value.Some? {
          kept := kept + [point.value.value];
        }
        i := i + 1;
      }
      assert points[..i] == points;
      if !stopEvent && raised {
        return false;
      }
      var truncated := Truncate(kept, numContainers);
      if truncated.Failure? {
        return false;
      }
      data := truncated.value;
      finished := true;
    }
  }

  /** The generator items `collect` handles: the first `consumed` ones, or none when the flag is already
      set before the first check of the loop. */
  function Handled(polled: seq<seq<Snapshot>>, streams: seq<seq<Snapshot>>, consumed: nat, stopped: bool): (r: seq<Snapshot>)
    requires consumed <= TotalLength(polled) + TotalLength(streams)
    ensures stopped ==> r == []
    ensures !stopped ==> r == StreamGenerator(polled, streams)[..consumed]
  {
    if stopped then [] else StreamGenerator(polled, streams)[..consumed]
  }

  /** One more snapshot through the extraction loop. */
  lemma ExtractAllStep(parseTime: string -> real, points: seq<Snapshot>, i: nat, kept: seq<Sample>)
    requires i < |points| && ExtractAll(parseTime, points[..i]) == Success(kept)
    ensures Extract(parseTime, points[i]).Failure? ==> ExtractAll(parseTime, points[..i + 1]).Failure?
    ensures Extract(parseTime, points[i]) == Success(None) ==> ExtractAll(parseTime, points[..i + 1]) == Success(kept)
    ensures forall x :: Extract(parseTime, points[i]) == Success(Some(x)) ==>
              ExtractAll(parseTime, points[..i + 1]) == Success(kept + [x])
  {
    assert points[..i + 1][..i] == points[..i];
  }

  /** Once a prefix of the snapshots raises, so does the whole run. */
  lemma {:induction false} ExtractAllFailureSticks(parseTime: string -> real, points: seq<Snapshot>, k: nat)
    requires k <= |points| && ExtractAll(parseTime, points[..k]).Failure?
    ensures ExtractAll(parseTime, points).Failure?
    decreases |points| - k
  {
    if k < |points| {
      assert points[..k + 1][..k] == points[..k];
      ExtractAllFailureSticks(parseTime, points, k + 1);
    } else {
      assert points[..k] == points;
    }
  }

  /** What a stored dataset looks like: whole rounds of the kept samples, which are the extractions of the
      complete consumed snapshots in order; it fails only on a zero container count or an exception. */
  lemma CollectedShape(parseTime: string -> real, points: seq<Snapshot>, n: nat)
    ensures Collected(parseTime, points, n).Failure? <==>
              n == 0 || exists i :: 0 <= i < |points| && Extract(parseTime, points[i]).Failure?
    ensures Collected(parseTime, points, n).Success? ==>
              var out := Collected(parseTime, points, n).value;
              var complete := Filter(Complete, points);
              && |out| % n == 0
              && |complete| - n < |out| <= |complete|
              && forall j :: 0 <= j < |out| ==> Extract(parseTime, complete[j]) == Success(Some(out[j]))
  {
    ExtractAllKeepsComplete(parseTime, points);
  }

  /** Line 141 as written fails in the same cases, stores nothing when the complete snapshots make whole
      rounds, and otherwise stores what the corrected slice stores. */
  lemma CollectedAsWrittenShape(parseTime: string -> real, points: seq<Snapshot>, n: nat)
    ensures CollectedAsWritten(parseTime, points, n).Failure? <==> Collected(parseTime, points, n).Failure?
    ensures CollectedAsWritten(parseTime, points, n).Success? ==>
              var complete := Filter(Complete, points);
              && (|complete| % n == 0 ==> CollectedAsWritten(parseTime, points, n).value == [])
              && (|complete| % n != 0 ==> CollectedAsWritten(parseTime, points, n) == Collected(parseTime, points, n))
  {
    ExtractAllKeepsComplete(parseTime, points);
    if ExtractAll(parseTime, points).Success? && n > 0 {
      var kept := ExtractAll(parseTime, points).value;
      if |kept| % n == 0 {
        assert kept[..|kept| - |kept| % n] == kept;
      } else {
        TruncateAgrees(kept, n);
      }
    }
  }
}

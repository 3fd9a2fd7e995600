/** The metric extractor of data_collection.py: one raw `docker stats` snapshot to one sample. */
module Telemetry {
  import opened Wrappers

  /** The counters of one network interface (`networks/<iface>/rx_bytes`, `tx_bytes`). */
  datatype Iface = Iface(rxBytes: int, txBytes: int)

  /** The parts of a raw stats snapshot that `extract` reads. A key that may be absent is an `Option`;
      `networks` lists the interface entries in the dictionary's iteration order. */
  datatype Snapshot = Snapshot(
    read: Option<string>,
    name: string,
    networks: Option<seq<(string, Iface)>>,
    memoryUsage: int,
    memoryLimit: int,
    cpuTotal: Option<int>,
    systemCpu: Option<int>,
    precpuTotal: Option<int>,
    precpuSystem: Option<int>)

  /** A normalised record: the five keys `time`, `container`, `total_net_traffic`, `memory_usage`, `cpu_usage`. */
  datatype Sample = Sample(
    time: real,
    container: string,
    totalNetTraffic: int,
    memoryUsage: real,
    cpuUsage: real)

  /** The `"time"` field of every sample, in order. */
  function TimesOf(data: seq<Sample>): (r: seq<real>)
    ensures |r| == |data| && forall i :: 0 <= i < |data| ==> r[i] == data[i].time
  {
    seq(|data|, (i: int) requires 0 <= i < |data| => data[i].time)
  }

  /** The exceptions `extract` lets escape. */
  datatype Exception = KeyError(key: string) | ZeroDivisionError(operand: string)

  /** The accumulation `total_net_traffic += rx_bytes; total_net_traffic += tx_bytes` over the interfaces. */
  function NetTotal(networks: seq<(string, Iface)>): int
  {
    if networks == [] then 0
    else networks[0].1.rxBytes + networks[0].1.txBytes + NetTotal(networks[1..])
  }

  lemma {:induction false} NetTotalAppend(a: seq<(string, Iface)>, b: seq<(string, Iface)>)
    ensures NetTotal(a + b) == NetTotal(a) + NetTotal(b)
  {
    if a == [] {
      assert a + b == b;
    } else {
      assert (a + b)[0] == a[0];
      assert (a + b)[1..] == a[1..] + b;
      NetTotalAppend(a[1..], b);
    }
  }

  /** Taking one interface out of the list takes its two counters out of the total. */
  lemma {:induction false} NetTotalRemove(networks: seq<(string, Iface)>, i: nat)
    requires i < |networks|
    ensures NetTotal(networks) == networks[i].1.rxBytes + networks[i].1.txBytes
                                  + NetTotal(networks[..i] + networks[i + 1..])
  {
    if i == 0 {
      assert networks[..0] + networks[1..] == networks[1..];
    } else {
      var tail := networks[1..];
      NetTotalRemove(tail, i - 1);
      var rest := networks[..i] + networks[i + 1..];
      assert rest[0] == networks[0];
      assert rest[1..] == tail[..i - 1] + tail[i..];
    }
  }

  /** The network total does not depend on the order in which the interfaces are visited. */
  lemma {:induction false} NetTotalPermutation(a: seq<(string, Iface)>, b: seq<(string, Iface)>)
    requires multiset(a) == multiset(b)
    ensures NetTotal(a) == NetTotal(b)
  {
    if a != [] {
      assert a[0] in multiset(b) by {
        assert a[0] in multiset(a);
      }
      var i :| 0 <= i < |b| && b[i] == a[0];
      var rest := b[..i] + b[i + 1..];
      MultisetRemove(a, b, i);
      NetTotalPermutation(a[1..], rest);
      NetTotalRemove(b, i);
    }
  }

  /** Taking the first element out of one side and an equal element out of the other keeps the multisets equal. */
  lemma MultisetRemove<T>(a: seq<T>, b: seq<T>, i: nat)
    requires multiset(a) == multiset(b) && a != [] && i < |b| && b[i] == a[0]
    ensures multiset(a[1..]) == multiset(b[..i] + b[i + 1..])
  {
    var rest := b[..i] + b[i + 1..];
    assert b == b[..i] + [b[i]] + b[i + 1..];
    assert multiset(b) == multiset(b[..i]) + multiset{b[i]} + multiset(b[i + 1..]);
    assert multiset(rest) == multiset(b[..i]) + multiset(b[i + 1..]);
    assert a == [a[0]] + a[1..];
    assert multiset(a) == multiset{a[0]} + multiset(a[1..]);
    assert multiset(a[1..]) == multiset(a) - multiset{a[0]};
    assert multiset(rest) == multiset(b) - multiset{b[i]};
  }

  /** `cpu_usage`: the container's CPU delta over the system's, or 0 when a `KeyError` is caught.
      A zero system delta is not caught and escapes as a `ZeroDivisionError`. */
  function CpuUsage(s: Snapshot): (r: Result<real, Exception>)
    ensures r.Failure? <==>
              s.cpuTotal.Some? && s.precpuTotal.Some? && s.systemCpu.Some? && s.precpuSystem.Some?
              && s.systemCpu.value == s.precpuSystem.value
    ensures (s.cpuTotal.None? || s.precpuTotal.None? || s.systemCpu.None? || s.precpuSystem.None?)
              ==> r == Success(0.0)
    ensures (r.Success? && s.cpuTotal.Some? && s.precpuTotal.Some? && s.systemCpu.Some? && s.precpuSystem.Some?)
              ==> r.value * (s.systemCpu.value - s.precpuSystem.value) as real
                  == (s.cpuTotal.value - s.precpuTotal.value) as real
  {
    if s.cpuTotal.None? || s.precpuTotal.None? then Success(0.0)
    else
      var contDiff := s.cpuTotal.value - s.precpuTotal.value;
      if s.systemCpu.None? || s.precpuSystem.None? then Success(0.0)
      else
        var sysDiff := s.systemCpu.value - s.precpuSystem.value;
        if sysDiff == 0 then Failure(ZeroDivisionError("system_cpu_usage"))
        else Success(contDiff as real / sysDiff as real)
  }

  /** Python's `name[1:]`: the container name without Docker's leading `/`. */
  function DropFirst(name: string): (r: string)
    ensures |name| > 0 ==> name == name[..1] + r
    ensures |name| == 0 ==> r == []
  {
    if |name| == 0 then [] else name[1..]
  }

  /** `extract`. `Success(None)` is the incomplete-record signal; `parseTime` stands for
      `datetime.fromisoformat(...).timestamp()`. */
  function Extract(parseTime: string -> real, s: Snapshot): (r: Result<Option<Sample>, Exception>)
    // the timestamp key is read before anything else
    ensures s.read.None? ==> r == Failure(KeyError("read"))
    // incomplete exactly when the network section is missing
    ensures r == Success(None) <==> s.read.Some? && s.networks.None?
    ensures r.Failure? && s.read.Some? ==>
              s.networks.Some? && (s.memoryLimit == 0 || CpuUsage(s).Failure?)
    ensures s.read.Some? && s.networks.Some? && s.memoryLimit != 0 && CpuUsage(s).Success? ==>
              r.Success? && r.value.Some?
    // a complete record carries every field, each derived from the snapshot
    ensures r.Success? && r.value.Some? ==>
              var x := r.value.value;
              && s.read.Some? && s.networks.Some?
              && x.time == parseTime(s.read.value)
              && x.totalNetTraffic == NetTotal(s.networks.value)
              && x.memoryUsage * s.memoryLimit as real == s.memoryUsage as real
              && CpuUsage(s) == Success(x.cpuUsage)
              && (|s.name| > 0 ==> s.name == s.name[..1] + x.container)
              && (|s.name| == 0 ==> x.container == [])
  {
    if s.read.None? then Failure(KeyError("read"))
    else if s.networks.None? then Success(None)
    else
      var total := NetTotal(s.networks.value);
      if s.memoryLimit == 0 then Failure(ZeroDivisionError("memory_stats/limit"))
      else
        var memory := s.memoryUsage as real / s.memoryLimit as real;
        match CpuUsage(s)
        case Failure(e) => Failure(e)
        case Success(cpu) =>
          Success(Some(Sample(parseTime(s.read.value), DropFirst(s.name), total, memory, cpu)))
  }
}

/** The data path of `DockerStatCollector`: interleaving the per-container streams
    (`stream_generator`), dropping incomplete records and truncating to whole rounds (`collect`). */
module Streams {
  import opened Wrappers
  import opened Sequences
  import opened Telemetry

  /** The first item of every stream that still has one, in stream order: one round of the merge. */
  function Heads<T>(ss: seq<seq<T>>): (r: seq<T>)
    ensures |r| <= |ss|
    ensures TotalLength(ss) > 0 ==> |r| > 0
  {
    if ss == [] then [] else (if ss[0] == [] then [] else [ss[0][0]]) + Heads(ss[1..])
  }

  /** Every stream after one round: advanced by one item, or still exhausted. */
  function Tails<T>(ss: seq<seq<T>>): (r: seq<seq<T>>)
    ensures |r| == |ss|
    ensures forall k :: 0 <= k < |ss| ==> r[k] == if ss[k] == [] then [] else ss[k][1..]
    ensures TotalLength(r) + |Heads(ss)| == TotalLength(ss)
  {
    if ss == [] then [] else [if ss[0] == [] then [] else ss[0][1..]] + Tails(ss[1..])
  }

  /** `more_itertools.roundrobin(*streams)`: one item per still-active stream per round, until all are exhausted. */
  function RoundRobin<T>(ss: seq<seq<T>>): (r: seq<T>)
    ensures |r| == TotalLength(ss)
    decreases TotalLength(ss)
  {
    if TotalLength(ss) == 0 then [] else Heads(ss) + RoundRobin(Tails(ss))
  }

  /** An item tagged with the index of the stream that produced it. */
  function TagIs<T>(k: nat): ((nat, T)) -> bool
  {
    (x: (nat, T)) => x.0 == k
  }

  predicate Tagged<T>(ss: seq<seq<(nat, T)>>, base: nat)
  {
    forall j, i :: 0 <= j < |ss| && 0 <= i < |ss[j]| ==> ss[j][i].0 == base + j
  }

  lemma {:induction false} HeadsOfStream<T>(ss: seq<seq<(nat, T)>>, base: nat, k: nat, tag: nat)
    requires Tagged(ss, base) && k < |ss| && tag == base + k
    ensures Filter(TagIs(tag), Heads(ss)) == if ss[k] == [] then [] else [ss[k][0]]
  {
    var p := TagIs<T>(tag);
    var h := if ss[0] == [] then [] else [ss[0][0]];
    assert Heads(ss) == h + Heads(ss[1..]);
    FilterAppend(p, h, Heads(ss[1..]));
    FilterHead(ss, base, tag);
    if k == 0 {
      FilterNone(ss[1..], base + 1, tag);
    } else {
      assert Tagged(ss[1..], base + 1);
      HeadsOfStream(ss[1..], base + 1, k - 1, tag);
      assert ss[1..][k - 1] == ss[k];
    }
  }

  /** The first stream's head survives the filter for its own tag only. */
  lemma FilterHead<T>(ss: seq<seq<(nat, T)>>, base: nat, t: nat)
    requires Tagged(ss, base) && ss != []
    ensures var h := if ss[0] == [] then [] else [ss[0][0]];
            Filter(TagIs(t), h) == if t == base then h else []
  {
    if ss[0] != [] {
      var x := ss[0][0];
      assert x.0 == base;
      assert [x][1..] == [];
    }
  }

  lemma {:induction false} FilterNone<T>(ss: seq<seq<(nat, T)>>, base: nat, k: nat)
    requires Tagged(ss, base) && k < base
    ensures Filter(TagIs(k), Heads(ss)) == []
  {
    if ss != [] {
      var h := if ss[0] == [] then [] else [ss[0][0]];
      FilterAppend(TagIs(k), h, Heads(ss[1..]));
      assert Tagged(ss[1..], base + 1);
      FilterNone(ss[1..], base + 1, k);
    }
  }

  /** The merge preserves each stream's internal order: picking out stream k's items gives stream k back. */
  lemma {:induction false} RoundRobinKeepsStreamOrder<T>(ss: seq<seq<(nat, T)>>, k: nat)
    requires Tagged(ss, 0) && k < |ss|
    ensures Filter(TagIs(k), RoundRobin(ss)) == ss[k]
    decreases TotalLength(ss)
  {
    if TotalLength(ss) == 0 {
      EmptyStream(ss, k);
    } else {
      var t := Tails(ss);
      var hk := if ss[k] == [] then [] else [ss[k][0]];
      RoundStep(ss, k);
      TailsTagged(ss);
      RoundRobinKeepsStreamOrder(t, k);
      HeadsOfStream(ss, 0, k, k);
      FilterRound(TagIs(k), RoundRobin(ss), Heads(ss), RoundRobin(t), hk, t[k], ss[k]);
    }
  }

  /** Every item paired with the index of the stream it comes from. */
  function TagAll<T>(ss: seq<seq<T>>): (r: seq<seq<(nat, T)>>)
    ensures |r| == |ss| && Tagged(r, 0)
    ensures forall k :: 0 <= k < |ss| ==> |r[k]| == |ss[k]|
    ensures forall k, i :: 0 <= k < |ss| && 0 <= i < |ss[k]| ==> r[k][i] == (k, ss[k][i])
  {
    seq(|ss|, (k: int) requires 0 <= k < |ss| => seq(|ss[k]|, (i: int) requires 0 <= i < |ss[k]| => (k as nat, ss[k][i])))
  }

  /** The items without their tags. */
  function Untag<T>(xs: seq<(nat, T)>): (r: seq<T>)
    ensures |r| == |xs| && forall i :: 0 <= i < |xs| ==> r[i] == xs[i].1
  {
    seq(|xs|, (i: int) requires 0 <= i < |xs| => xs[i].1)
  }

  function UntagAll<T>(ss: seq<seq<(nat, T)>>): (r: seq<seq<T>>)
    ensures |r| == |ss| && forall k :: 0 <= k < |ss| ==> r[k] == Untag(ss[k])
  {
    seq(|ss|, (k: int) requires 0 <= k < |ss| => Untag(ss[k]))
  }

  lemma UntagTagAll<T>(ss: seq<seq<T>>)
    ensures UntagAll(TagAll(ss)) == ss
  {
    var u := UntagAll(TagAll(ss));
    forall k | 0 <= k < |ss| ensures u[k] == ss[k] {
      assert Untag(TagAll(ss)[k]) == ss[k];
    }
  }

  lemma UntagAppend<T>(a: seq<(nat, T)>, b: seq<(nat, T)>)
    ensures Untag(a + b) == Untag(a) + Untag(b)
  {
  }

  lemma {:induction false} HeadsUntag<T>(ss: seq<seq<(nat, T)>>)
    ensures Untag(Heads(ss)) == Heads(UntagAll(ss))
  {
    if ss != [] {
      var u := UntagAll(ss);
      HeadsUntag(ss[1..]);
      assert u[1..] == UntagAll(ss[1..]);
      var h := if ss[0] == [] then [] else [ss[0][0]];
      var hu := if u[0] == [] then [] else [u[0][0]];
      assert Untag(h) == hu;
      UntagAppend(h, Heads(ss[1..]));
    }
  }

  lemma TailsUntag<T>(ss: seq<seq<(nat, T)>>)
    ensures UntagAll(Tails(ss)) == Tails(UntagAll(ss))
  {
    forall k | 0 <= k < |ss| ensures UntagAll(Tails(ss))[k] == Tails(UntagAll(ss))[k] {
      var t, u := Tails(ss)[k], UntagAll(ss)[k];
      if ss[k] != [] {
        UntagTail(ss[k]);
        assert t == ss[k][1..] && u == Untag(ss[k]);
      } else {
        assert t == [] && u == [];
      }
    }
  }

  lemma UntagTail<T>(xs: seq<(nat, T)>)
    requires xs != []
    ensures Untag(xs[1..]) == Untag(xs)[1..]
  {
  }

  lemma {:induction false} TotalLengthUntag<T>(ss: seq<seq<(nat, T)>>)
    ensures TotalLength(UntagAll(ss)) == TotalLength(ss)
  {
    if ss != [] {
      TotalLengthUntag(ss[1..]);
      assert UntagAll(ss)[1..] == UntagAll(ss[1..]);
    }
  }

  /** Tags ride along: merging and then dropping the tags is merging the untagged streams. */
  lemma {:induction false} RoundRobinUntag<T>(ss: seq<seq<(nat, T)>>)
    ensures Untag(RoundRobin(ss)) == RoundRobin(UntagAll(ss))
    decreases TotalLength(ss)
  {
    TotalLengthUntag(ss);
    if TotalLength(ss) > 0 {
      RoundRobinUntag(Tails(ss));
      HeadsUntag(ss);
      TailsUntag(ss);
      UntagAppend(Heads(ss), RoundRobin(Tails(ss)));
      TotalLengthUntag(ss);
    }
  }

  /** Lines 123-125 on untagged streams: tagging every item with its stream, the merge is the merge of
      the streams themselves, and the items tagged k are stream k, in order. */
  lemma MergeKeepsStreamOrder<T>(ss: seq<seq<T>>, k: nat)
    requires k < |ss|
    ensures Untag(RoundRobin(TagAll(ss))) == RoundRobin(ss)
    ensures Untag(Filter(TagIs(k), RoundRobin(TagAll(ss)))) == ss[k]
  {
    RoundRobinUntag(TagAll(ss));
    UntagTagAll(ss);
    RoundRobinKeepsStreamOrder(TagAll(ss), k);
    assert Untag(TagAll(ss)[k]) == ss[k];
  }

  /** One round of the merge: the heads, then the merge of the tails; stream k is its head and its tail. */
  lemma RoundStep<T>(ss: seq<seq<T>>, k: nat)
    requires TotalLength(ss) > 0 && k < |ss|
    ensures RoundRobin(ss) == Heads(ss) + RoundRobin(Tails(ss))
    ensures (if ss[k] == [] then [] else [ss[k][0]]) + Tails(ss)[k] == ss[k]
  {
    if ss[k] != [] {
      assert ss[k] == [ss[k][0]] + ss[k][1..];
    }
  }

  /** Filtering a round followed by the later rounds. */
  lemma FilterRound<T>(p: T -> bool, rr: seq<T>, hs: seq<T>, rt: seq<T>, hk: seq<T>, tk: seq<T>, sk: seq<T>)
    requires rr == hs + rt && Filter(p, hs) == hk && Filter(p, rt) == tk && sk == hk + tk
    ensures Filter(p, rr) == sk
  {
    FilterAppend(p, hs, rt);
  }

  lemma TailsTagged<T>(ss: seq<seq<(nat, T)>>)
    requires Tagged(ss, 0)
    ensures Tagged(Tails(ss), 0)
  {
    var t: seq<seq<(nat, T)>> := Tails(ss);
    forall j: nat, i: nat | j < |t| && i < |t[j]| ensures t[j][i].0 == j {
      assert t[j][i] == ss[j][i + 1];
    }
  }

  lemma {:induction false} EmptyStream<T>(ss: seq<seq<T>>, k: nat)
    requires TotalLength(ss) == 0 && k < |ss|
    ensures ss[k] == []
  {
    if k > 0 {
      EmptyStream(ss[1..], k - 1);
    }
  }

  lemma ConcatTailsCons<T>(ss: seq<seq<T>>)
    requires ss != []
    ensures Concat(Tails(ss)) == (if ss[0] == [] then [] else ss[0][1..]) + Concat(Tails(ss[1..]))
  {
    var tl := Tails(ss);
    assert tl[1..] == Tails(ss[1..]);
  }

  /** One round's bookkeeping: the head and the rest of the first stream, added to the rounds of the others. */
  lemma MultisetSplit<T>(hs: seq<T>, cts: seq<T>, c: seq<T>, h: seq<T>, t: seq<T>, hsr: seq<T>, ctsr: seq<T>, cr: seq<T>)
    requires hs == h + hsr && cts == t + ctsr && c == h + t + cr
    requires multiset(hsr) + multiset(ctsr) == multiset(cr)
    ensures multiset(hs) + multiset(cts) == multiset(c)
  {
  }

  /** A round splits the first stream into its head and its tail. */
  lemma RoundCons<T>(ss: seq<seq<T>>)
    requires ss != []
    ensures var h := if ss[0] == [] then [] else [ss[0][0]];
            var t := if ss[0] == [] then [] else ss[0][1..];
            && Heads(ss) == h + Heads(ss[1..])
            && Concat(Tails(ss)) == t + Concat(Tails(ss[1..]))
            && Concat(ss) == h + t + Concat(ss[1..])
  {
    ConcatTailsCons(ss);
    if ss[0] != [] {
      assert ss[0] == [ss[0][0]] + ss[0][1..];
    }
  }

  lemma {:induction false} HeadsContent<T>(ss: seq<seq<T>>)
    ensures multiset(Heads(ss)) + multiset(Concat(Tails(ss))) == multiset(Concat(ss))
  {
    if ss != [] {
      var rest := ss[1..];
      HeadsContent(rest);
      RoundCons(ss);
      var h := if ss[0] == [] then [] else [ss[0][0]];
      var t := if ss[0] == [] then [] else ss[0][1..];
      MultisetSplit(Heads(ss), Concat(Tails(ss)), Concat(ss), h, t, Heads(rest), Concat(Tails(rest)), Concat(rest));
    }
  }

  /** The merge is an interleaving: it holds exactly the items of all streams. */
  lemma {:induction false} RoundRobinContent<T>(ss: seq<seq<T>>)
    ensures multiset(RoundRobin(ss)) == multiset(Concat(ss))
    decreases TotalLength(ss)
  {
    if TotalLength(ss) == 0 {
      ConcatLength(ss);
    } else {
      RoundRobinContent(Tails(ss));
      HeadsContent(ss);
    }
  }

  /** The items `stream_generator` yields: the one-shot snapshots of the listing loop that runs while no
      container list is set, then the round-robin merge of the per-container live streams. */
  function StreamGenerator<T>(polled: seq<seq<T>>, streams: seq<seq<T>>): (r: seq<T>)
    ensures |r| == TotalLength(polled) + TotalLength(streams)
  {
    ConcatLength(polled);
    Concat(polled) + RoundRobin(streams)
  }

  /** A snapshot that `Extract` turns into a sample rather than the incomplete signal. */
  predicate Complete(s: Snapshot)
  {
    s.read.Some? && s.networks.Some?
  }

  /** The `extract` / `if point: data.append(point)` loop of `collect` over the consumed snapshots:
      the first exception ends it. */
  function ExtractAll(parseTime: string -> real, points: seq<Snapshot>): Result<seq<Sample>, Exception>
  {
    if points == [] then Success([])
    else
      match ExtractAll(parseTime, points[..|points| - 1])
      case Failure(e) => Failure(e)
      case Success(kept) =>
        match Extract(parseTime, points[|points| - 1])
        case Failure(e) => Failure(e)
        case Success(None) => Success(kept)
        case Success(Some(x)) => Success(kept + [x])
  }

  /** The kept samples are, in order, the extractions of the complete snapshots; no exception means
      every snapshot extracted cleanly. */
  lemma {:induction false} ExtractAllKeepsComplete(parseTime: string -> real, points: seq<Snapshot>)
    ensures ExtractAll(parseTime, points).Success? <==>
              forall i :: 0 <= i < |points| ==> Extract(parseTime, points[i]).Success?
    ensures ExtractAll(parseTime, points).Success? ==>
              var kept := ExtractAll(parseTime, points).value;
              var complete := Filter(Complete, points);
              && |kept| == |complete|
              && forall j :: 0 <= j < |kept| ==> Extract(parseTime, complete[j]) == Success(Some(kept[j]))
  {
    ExtractAllSucceeds(parseTime, points);
    if ExtractAll(parseTime, points).Success? {
      ExtractAllKept(parseTime, points);
    }
  }

  lemma {:induction false} ExtractAllSucceeds(parseTime: string -> real, points: seq<Snapshot>)
    ensures ExtractAll(parseTime, points).Success? <==>
              forall i :: 0 <= i < |points| ==> Extract(parseTime, points[i]).Success?
  {
    if points != [] {
      var n := |points|;
      var init := points[..n - 1];
      ExtractAllSucceeds(parseTime, init);
      assert forall i :: 0 <= i < n - 1 ==> init[i] == points[i];
    }
  }

  lemma {:induction false} ExtractAllKept(parseTime: string -> real, points: seq<Snapshot>)
    requires ExtractAll(parseTime, points).Success?
    ensures var kept := ExtractAll(parseTime, points).value;
            var complete := Filter(Complete, points);
            && |kept| == |complete|
            && forall j :: 0 <= j < |kept| ==> Extract(parseTime, complete[j]) == Success(Some(kept[j]))
  {
    if points != [] {
      var n := |points|;
      var init, last := points[..n - 1], points[n - 1];
      var before := ExtractAll(parseTime, init).value;
      ExtractAllKept(parseTime, init);
      assert Filter(Complete, points) == Filter(Complete, init) + Filter(Complete, [last]) by {
        assert points == init + [last];
        FilterAppend(Complete, init, [last]);
      }
      FilterSingleton(Complete, last);
      var r := Extract(parseTime, last);
      var kept := ExtractAll(parseTime, points).value;
      var complete := Filter(Complete, points);
      var cinit := Filter(Complete, init);
      if r.value.None? {
        assert !Complete(last);
        assert kept == before && complete == cinit;
      } else {
        assert Complete(last);
        assert kept == before + [r.value.value] && complete == cinit + [last];
        KeptSnoc(parseTime, cinit, before, last, r.value.value);
      }
    }
  }

  lemma KeptSnoc(parseTime: string -> real, complete: seq<Snapshot>, kept: seq<Sample>, last: Snapshot, x: Sample)
    requires |kept| == |complete|
    requires forall j :: 0 <= j < |kept| ==> Extract(parseTime, complete[j]) == Success(Some(kept[j]))
    requires Extract(parseTime, last) == Success(Some(x))
    ensures forall j :: 0 <= j < |kept| + 1 ==>
              Extract(parseTime, (complete + [last])[j]) == Success(Some((kept + [x])[j]))
  {
  }

  /** Python's `data[:stop]`, with a negative `stop` counting from the end and `data[:0] == []`. */
  function SlicePrefix<T>(data: seq<T>, stop: int): seq<T>
  {
    if stop >= 0 then data[..Min(stop, |data|)] else data[..Max(0, |data| + stop)]
  }

  /** `data[: -(len(data) % num_containers)]` exactly as the source writes it. */
  function TruncateAsWritten<T>(data: seq<T>, n: nat): Result<seq<T>, Exception>
  {
    if n == 0 then Failure(ZeroDivisionError("num_containers"))
    else Success(SlicePrefix(data, -(|data| % n)))
  }

  /** When the count is already a multiple of the container count, the source keeps nothing at all. */
  lemma TruncateAsWrittenDropsEverything<T>(data: seq<T>, n: nat)
    requires n > 0 && |data| > 0 && |data| % n == 0
    ensures TruncateAsWritten(data, n) == Success([])
    ensures Truncate(data, n) == Success(data)
  {
    assert data[..|data| - |data| % n] == data;
  }

  /** Two containers and two complete rounds: the source discards both rounds. */
  lemma TruncateAsWrittenExample()
    ensures TruncateAsWritten([1, 2, 3, 4], 2) == Success([])
    ensures Truncate([1, 2, 3, 4], 2) == Success([1, 2, 3, 4])
  {
    TruncateAsWrittenDropsEverything([1, 2, 3, 4], 2);
  }

  /** The trailing partial round removed: the longest prefix whose length is a multiple of the container count. */
  function Truncate<T>(data: seq<T>, n: nat): (r: Result<seq<T>, Exception>)
    ensures r.Failure? <==> n == 0
    ensures r.Success? ==> r.value <= data && |r.value| % n == 0 && |data| - n < |r.value|
  {
    if n == 0 then Failure(ZeroDivisionError("num_containers"))
    else
      WholeRounds(|data|, n);
      Success(data[..|data| - |data| % n])
  }

  /** Removing the remainder leaves a multiple of `n`, less than `n` below the original. */
  lemma WholeRounds(len: nat, n: nat)
    requires n > 0
    ensures (len - len % n) % n == 0 && len - n < len - len % n
  {
    var q := len / n;
    assert len - len % n == q * n + 0;
    ModUnique(len - len % n, n, q, 0);
  }

  /** Euclidean division is unique: a quotient and a remainder in range are the ones `/` and `%` give. */
  lemma ModUnique(a: nat, n: nat, q: int, r: int)
    requires n > 0 && a == q * n + r && 0 <= r < n
    ensures a % n == r
  {
    var q', r' := a / n, a % n;
    assert a == q' * n + r' && 0 <= r' < n;
    assert (q - q') * n == r' - r;
    if q - q' >= 1 {
      MulAtLeast(q - q', n);
      assert false;
    } else if q' - q >= 1 {
      MulAtLeast(q' - q, n);
      assert false;
    }
  }

  lemma {:induction false} MulAtLeast(k: int, n: nat)
    requires k >= 1
    ensures k * n >= n
  {
    if k > 1 {
      MulAtLeast(k - 1, n);
      assert k * n == (k - 1) * n + n;
    }
  }

  /** Where a partial round is left over, the source's slice and the corrected one agree. */
  lemma TruncateAgrees<T>(data: seq<T>, n: nat)
    requires n > 0 && |data| % n != 0
    ensures TruncateAsWritten(data, n) == Truncate(data, n)
  {
  }

  /** What line 141 as written would store: the kept samples cut by `data[: -(len(data) % n)]`. */
  function CollectedAsWritten(parseTime: string -> real, points: seq<Snapshot>, n: nat): Result<seq<Sample>, Exception>
  {
    match ExtractAll(parseTime, points)
    case Failure(e) => Failure(e)
    case Success(kept) => TruncateAsWritten(kept, n)
  }

  /** What `collect` stores: the kept samples of the consumed snapshots, cut to whole rounds. */
  function Collected(parseTime: string -> real, points: seq<Snapshot>, n: nat): Result<seq<Sample>, Exception>
  {
    match ExtractAll(parseTime, points)
    case Failure(e) => Failure(e)
    case Success(kept) => Truncate(kept, n)
  }
}

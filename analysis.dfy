/** The decision logic of analysis.py: the steady-state trim, network shaping, the two command runners and
    the branch list. Processes, containers and the repository are replaced by the outcomes they produce. */
module Analysis {
  import opened Wrappers
  import opened Sequences
  import opened Text
  import opened Telemetry
  import opened Collectors

  /** The object `run_analysis` returns: exactly the keys `docker_stats` and `client_perf`. */
  datatype ExperimentResult = ExperimentResult(dockerStats: seq<Sample>, clientPerf: seq<LatencyRecord>)

  /** The `ValueError` of `min` over an empty dataset. */
  datatype TrimError = EmptyDataset

  function Starts(perf: seq<LatencyRecord>): (r: seq<real>)
    ensures |r| == |perf| && forall i :: 0 <= i < |perf| ==> r[i] == perf[i].start
  {
    seq(|perf|, (i: int) requires 0 <= i < |perf| => perf[i].start)
  }

  /** `min(min_time_perf, min_time_stats)`: the earliest timestamp of both datasets. */
  function TrimAnchor(perf: seq<LatencyRecord>, stats: seq<Sample>): (r: Result<real, TrimError>)
    ensures r.Success? <==> |perf| > 0 && |stats| > 0
    ensures r.Success? ==>
              && (forall i :: 0 <= i < |perf| ==> r.value <= perf[i].start)
              && (forall i :: 0 <= i < |stats| ==> r.value <= stats[i].time)
              && ((exists i :: 0 <= i < |perf| && r.value == perf[i].start)
                  || (exists i :: 0 <= i < |stats| && r.value == stats[i].time))
  {
    if |perf| == 0 || |stats| == 0 then Failure(EmptyDataset)
    else
      var minPerf := MinOf(Starts(perf));
      var minStats := MinOf(TimesOf(stats));
      Success(if minPerf <= minStats then minPerf else minStats)
  }

  function StartsAfter(bound: real): LatencyRecord -> bool
  {
    (x: LatencyRecord) => x.start > bound
  }

  function TimeAfter(bound: real): Sample -> bool
  {
    (x: Sample) => x.time > bound
  }

  /** Lines 146-151 and 168: drop every record not strictly after anchor + spin-up, and package the rest. */
  function Trim(perf: seq<LatencyRecord>, stats: seq<Sample>, spinupTime: int): Result<ExperimentResult, TrimError>
  {
    match TrimAnchor(perf, stats)
    case Failure(e) => Failure(e)
    case Success(anchor) =>
      var bound := spinupTime as real + anchor;
      Success(ExperimentResult(Filter(TimeAfter(bound), stats), Filter(StartsAfter(bound), perf)))
  }

  lemma FilterStartsAfter(perf: seq<LatencyRecord>, bound: real)
    ensures forall x :: x in Filter(StartsAfter(bound), perf) <==> x in perf && x.start > bound
    ensures forall x :: multiset(Filter(StartsAfter(bound), perf))[x] == if x.start > bound then multiset(perf)[x] else 0
  {
    FilterSpec(StartsAfter(bound), perf);
  }

  lemma FilterTimeAfter(stats: seq<Sample>, bound: real)
    ensures forall x :: x in Filter(TimeAfter(bound), stats) <==> x in stats && x.time > bound
    ensures forall x :: multiset(Filter(TimeAfter(bound), stats))[x] == if x.time > bound then multiset(stats)[x] else 0
  {
    FilterSpec(TimeAfter(bound), stats);
  }

  /** The trim keeps exactly the steady-state records: all later than the bound, each as often as in the
      input, none at or before the bound. It fails exactly when a dataset is empty. */
  lemma TrimKeepsSteadyState(perf: seq<LatencyRecord>, stats: seq<Sample>, spinupTime: int)
    ensures Trim(perf, stats, spinupTime).Failure? <==> |perf| == 0 || |stats| == 0
    ensures Trim(perf, stats, spinupTime).Success? ==>
              var res := Trim(perf, stats, spinupTime).value;
              var bound := spinupTime as real + TrimAnchor(perf, stats).value;
              && (forall x :: x in res.clientPerf <==> x in perf && x.start > bound)
              && (forall x :: x in res.dockerStats <==> x in stats && x.time > bound)
              && (forall x :: multiset(res.clientPerf)[x] == if x.start > bound then multiset(perf)[x] else 0)
              && (forall x :: multiset(res.dockerStats)[x] == if x.time > bound then multiset(stats)[x] else 0)
  {
    if |perf| > 0 && |stats| > 0 {
      var bound := spinupTime as real + TrimAnchor(perf, stats).value;
      var res := Trim(perf, stats, spinupTime).value;
      assert res.clientPerf == Filter(StartsAfter(bound), perf);
      assert res.dockerStats == Filter(TimeAfter(bound), stats);
      FilterStartsAfter(perf, bound);
      FilterTimeAfter(stats, bound);
    }
  }

  // ---- network shaping (lines 113-129) ----

  /** The end of the run of digits starting at `p`. */
  function DigitRunEnd(s: string, p: nat): (q: nat)
    requires p <= |s|
    ensures p <= q <= |s|
    ensures forall i :: p <= i < q ==> IsDigit(s[i])
    ensures q < |s| ==> !IsDigit(s[q])
    ensures p < |s| && IsDigit(s[p]) ==> p < q
    decreases |s| - p
  {
    if p < |s| && IsDigit(s[p]) then DigitRunEnd(s, p + 1) else p
  }

  /** The pattern `\d+: (eth\d)` matches at `p`. The greedy `\d+` must take the whole run of digits,
      since a shorter run leaves a digit where `:` is needed. */
  predicate MatchAt(s: string, p: nat)
    requires p <= |s|
  {
    p < |s| && IsDigit(s[p]) &&
    var q := DigitRunEnd(s, p);
    q + 6 <= |s| && s[q..q + 5] == ": eth" && IsDigit(s[q + 5])
  }

  /** `iface` follows one or more digits and `": "` at position `q` of `s`. */
  predicate IfaceAt(s: string, q: int, iface: string)
  {
    1 <= q && q + 6 <= |s| && IsDigit(s[q - 1]) && s[q..q + 2] == ": " && s[q + 2..q + 6] == iface
  }

  /** `re.findall(r"\d+: (eth\d)", s)` scanning from `from`: the captured group of each match, left to right. */
  function FindIfaces(s: string, from: nat): (r: seq<string>)
    requires from <= |s|
    ensures forall i :: 0 <= i < |r| ==>
              |r[i]| == 4 && r[i][..3] == "eth" && IsDigit(r[i][3]) && ' ' !in r[i]
    decreases |s| - from
  {
    if from == |s| then []
    else if MatchAt(s, from) then
      var q := DigitRunEnd(s, from);
      assert q + 6 <= |s| && s[q..q + 5] == ": eth" && IsDigit(s[q + 5]);
      assert s[q + 2..q + 6][..3] == s[q..q + 5][2..];
      assert s[q + 2..q + 6][3] == s[q + 5];
      [s[q + 2..q + 6]] + FindIfaces(s, q + 6)
    else FindIfaces(s, from + 1)
  }

  /** With no match anywhere from `from` on, nothing is found. */
  lemma {:induction false} FindIfacesNone(s: string, from: nat)
    requires from <= |s|
    requires forall p :: from <= p < |s| ==> !MatchAt(s, p)
    ensures FindIfaces(s, from) == []
    decreases |s| - from
  {
    if from < |s| {
      FindIfacesNone(s, from + 1);
    }
  }

  /** The leftmost match from `from` on is found first, and the scan resumes right after it, as
      `re.findall` does. */
  lemma {:induction false} FindIfacesFirst(s: string, from: nat, p: nat)
    requires from <= p < |s| && MatchAt(s, p)
    requires forall j :: from <= j < p ==> !MatchAt(s, j)
    ensures var q := DigitRunEnd(s, p);
            q + 6 <= |s| && FindIfaces(s, from) == [s[q + 2..q + 6]] + FindIfaces(s, q + 6)
    decreases p - from
  {
    MatchStep(s, p);
    if from < p {
      FindIfacesFirst(s, from + 1, p);
    }
  }

  /** Every interface found is the text after a run of digits and `": "` in `s`, after `from`: `q` is
      the position of that `": "`. */
  lemma {:induction false} FindIfacesFound(s: string, from: nat, i: nat) returns (q: int)
    requires from <= |s| && i < |FindIfaces(s, from)|
    ensures from < q && IfaceAt(s, q, FindIfaces(s, from)[i])
    decreases |s| - from
  {
    if MatchAt(s, from) {
      var p := DigitRunEnd(s, from);
      MatchStep(s, from);
      if i == 0 {
        q := p;
      } else {
        q := FindIfacesFound(s, p + 6, i - 1);
      }
    } else {
      q := FindIfacesFound(s, from + 1, i);
    }
  }

  /** A match at `from` yields the four characters after its `": "`, and the scan resumes after them. */
  lemma MatchStep(s: string, from: nat)
    requires from <= |s| && MatchAt(s, from)
    ensures var p := DigitRunEnd(s, from);
            && from < p && p + 6 <= |s| && IfaceAt(s, p, s[p + 2..p + 6])
            && FindIfaces(s, from) == [s[p + 2..p + 6]] + FindIfaces(s, p + 6)
  {
    var p := DigitRunEnd(s, from);
    assert s[p..p + 2] == s[p..p + 5][..2];
  }

  /** The `tc` command line built for one interface. */
  function TcCommand(iface: string, minLat: string, maxBw: string, lossPerc: string): string
  {
    "tc qdisc add dev " + (iface + (" root netem " + (("delay " + minLat) + (" " + (("rate " + maxBw) + (" " + ("loss " + lossPerc)))))))
  }

  function TcWords(iface: string, minLat: string, maxBw: string, lossPerc: string): seq<string>
  {
    ["tc", "qdisc", "add", "dev", iface, "root", "netem", "delay", minLat, "rate", maxBw, "loss", lossPerc]
  }

  lemma SplitStep(w: string, rest: string)
    requires ' ' !in w
    ensures Split(w + " " + rest, ' ') == [w] + Split(rest, ' ')
  {
    assert w + " " + rest == w + [' '] + rest;
    SplitCons(w, rest, ' ');
  }

  /** A literal that starts with a word and a space splits off that word, whatever follows it. */
  lemma SplitLiteral(lit: string, w: string, restLit: string, x: string)
    requires ' ' !in w && lit == w + " " + restLit
    ensures Split(lit + x, ' ') == [w] + Split(restLit + x, ' ')
  {
    assert lit + x == w + " " + (restLit + x);
    SplitStep(w, restLit + x);
  }

  /** The literal start of the command line, one word at a time. */
  lemma HeadLiterals()
    ensures "tc qdisc add dev " == "tc" + " " + "qdisc add dev "
    ensures "qdisc add dev " == "qdisc" + " " + "add dev "
    ensures "add dev " == "add" + " " + "dev "
    ensures "dev " == "dev" + " " + ""
  {
  }

  /** The literal after the device, one word at a time. */
  lemma NetemLiterals()
    ensures " root netem " == " " + "root netem "
    ensures "root netem " == "root" + " " + "netem "
    ensures "netem " == "netem" + " " + ""
  {
  }

  /** The keywords of the three settings, each followed by a space. */
  lemma SettingLiterals()
    ensures "delay " == "delay" + " " && "rate " == "rate" + " " && "loss " == "loss" + " "
  {
  }

  /** A word, then a literal that starts with a space. */
  lemma WordThenSpace(w: string, lit: string, restLit: string, y: string)
    requires lit == " " + restLit
    ensures w + (lit + y) == w + " " + (restLit + y)
  {
  }

  /** The fixed words `tc qdisc add dev` before the device. */
  lemma TcHeadWords(x: string)
    ensures Split("tc qdisc add dev " + x, ' ') == ["tc", "qdisc", "add", "dev"] + Split(x, ' ')
  {
    assert Split("tc qdisc add dev " + x, ' ') == ["tc"] + Split("qdisc add dev " + x, ' ') by {
      HeadLiterals();
      SplitLiteral("tc qdisc add dev ", "tc", "qdisc add dev ", x);
    }
    assert Split("qdisc add dev " + x, ' ') == ["qdisc"] + Split("add dev " + x, ' ') by {
      HeadLiterals();
      SplitLiteral("qdisc add dev ", "qdisc", "add dev ", x);
    }
    AddDevWords(x);
  }

  lemma AddDevWords(x: string)
    ensures Split("add dev " + x, ' ') == ["add", "dev"] + Split(x, ' ')
  {
    assert Split("add dev " + x, ' ') == ["add"] + Split("dev " + x, ' ') by {
      HeadLiterals();
      SplitLiteral("add dev ", "add", "dev ", x);
    }
    assert Split("dev " + x, ' ') == ["dev"] + Split(x, ' ') by {
      HeadLiterals();
      SplitLiteral("dev ", "dev", "", x);
      assert "" + x == x;
    }
  }

  /** The device followed by the fixed words `root netem`. */
  lemma NetemWords(iface: string, y: string)
    requires ' ' !in iface
    ensures Split(iface + (" root netem " + y), ' ') == [iface, "root", "netem"] + Split(y, ' ')
  {
    NetemLiterals();
    WordThenSpace(iface, " root netem ", "root netem ", y);
    SplitStep(iface, "root netem " + y);
    RootNetemWords(y);
  }

  /** The fixed words `root netem`. */
  lemma RootNetemWords(y: string)
    ensures Split("root netem " + y, ' ') == ["root", "netem"] + Split(y, ' ')
  {
    NetemLiterals();
    SplitLiteral("root netem ", "root", "netem ", y);
    SplitLiteral("netem ", "netem", "", y);
    assert "" + y == y;
  }

  /** One setting, its keyword and its value, followed by a space and the rest of the line. */
  lemma SettingWords(lit: string, keyword: string, value: string, rest: string)
    requires ' ' !in keyword && ' ' !in value && lit == keyword + " "
    ensures Split((lit + value) + (" " + rest), ' ') == [keyword, value] + Split(rest, ' ')
  {
    assert (lit + value) + (" " + rest) == keyword + " " + (value + " " + rest);
    SplitStep(keyword, value + " " + rest);
    SplitStep(value, rest);
  }

  /** The last setting, its keyword and its value. */
  lemma LastSettingWords(lit: string, keyword: string, value: string)
    requires ' ' !in keyword && ' ' !in value && lit == keyword + " "
    ensures Split(lit + value, ' ') == [keyword, value]
  {
    SplitLiteral(lit, keyword, "", value);
    assert "" + value == value;
    SplitWord(value, ' ');
  }

  /** The command splits back into its words: the device is the fifth word, and the delay, rate and loss
      arguments follow their keywords. */
  lemma TcCommandWords(iface: string, minLat: string, maxBw: string, lossPerc: string)
    requires ' ' !in iface && ' ' !in minLat && ' ' !in maxBw && ' ' !in lossPerc
    ensures Split(TcCommand(iface, minLat, maxBw, lossPerc), ' ') == TcWords(iface, minLat, maxBw, lossPerc)
  {
    var loss := "loss " + lossPerc;
    var rate := ("rate " + maxBw) + (" " + loss);
    var settings := ("delay " + minLat) + (" " + rate);
    SettingLiterals();
    TcHeadWords(iface + (" root netem " + settings));
    NetemWords(iface, settings);
    SettingWords("delay ", "delay", minLat, rate);
    SettingWords("rate ", "rate", maxBw, loss);
    LastSettingWords("loss ", "loss", lossPerc);
  }

  /** One `tc` step: the index of the container, the place of the interface in the list the scan found
      on it, and the interface. The scan may find one interface twice, and then two steps issue the same
      command on the same container; the place tells the two issues apart. */
  datatype Step = Step(container: nat, position: nat, iface: string)

  function Pairs(c: nat, ifaces: seq<string>): (r: seq<Step>)
    ensures |r| == |ifaces| && forall i :: 0 <= i < |r| ==> r[i] == Step(c, i, ifaces[i])
  {
    seq(|ifaces|, (i: int) requires 0 <= i < |ifaces| => Step(c, i, ifaces[i]))
  }

  /** The nested loop's order: every interface of container 0, then of container 1, and so on.
      `links[c]` is the `ip link show` output of the c-th container. */
  function ShapingPlan(links: seq<string>): seq<Step>
  {
    if links == [] then []
    else ShapingPlan(links[..|links| - 1]) + Pairs(|links| - 1, FindIfaces(links[|links| - 1], 0))
  }

  lemma {:induction false} ShapingPlanPrefix(links: seq<string>, m: nat)
    requires m <= |links|
    ensures ShapingPlan(links[..m]) <= ShapingPlan(links)
    decreases |links| - m
  {
    if m < |links| {
      ShapingPlanPrefix(links, m + 1);
      assert links[..m + 1][..m] == links[..m];
    } else {
      assert links[..m] == links;
    }
  }

  lemma ShapingPlanSnoc(links: seq<string>, c: nat)
    requires c < |links|
    ensures ShapingPlan(links[..c + 1]) == ShapingPlan(links[..c]) + Pairs(c, FindIfaces(links[c], 0))
  {
    assert links[..c + 1][..c] == links[..c];
  }

  lemma ShapingPlanSplit(links: seq<string>, m: nat)
    requires m <= |links|
    ensures var p := ShapingPlan(links[..m]);
            |p| <= |ShapingPlan(links)| && ShapingPlan(links) == p + ShapingPlan(links)[|p|..]
  {
    ShapingPlanPrefix(links, m);
  }

  datatype ShapeError = ShapeError(container: nat, iface: string, exitCode: int)

  /** The exit code `exec_run` reports for the `tc` command of one step of the plan. `exitCode(c, j, cmd)`
      is what running `cmd` as the j-th `tc` command on the c-th container reports, so a repeated command
      may fail where its first issue succeeded. */
  function StepCode(step: Step, exitCode: (nat, nat, string) -> int, minLat: string, maxBw: string, lossPerc: string): int
  {
    exitCode(step.container, step.position, TcCommand(step.iface, minLat, maxBw, lossPerc))
  }

  /** The index of the first step whose command fails, or the length of the plan when none does. */
  function FirstFailure(plan: seq<Step>, exitCode: (nat, nat, string) -> int, minLat: string, maxBw: string, lossPerc: string): (n: nat)
    ensures n <= |plan|
    ensures forall k :: 0 <= k < n ==> StepCode(plan[k], exitCode, minLat, maxBw, lossPerc) == 0
    ensures n < |plan| ==> StepCode(plan[n], exitCode, minLat, maxBw, lossPerc) != 0
  {
    if plan == [] then 0
    else if StepCode(plan[0], exitCode, minLat, maxBw, lossPerc) != 0 then 0
    else 1 + FirstFailure(plan[1..], exitCode, minLat, maxBw, lossPerc)
  }

  /** The commands a run of the plan issues: every step up to and including the first that fails. */
  function Issued(plan: seq<Step>, exitCode: (nat, nat, string) -> int, minLat: string, maxBw: string, lossPerc: string): seq<string>
  {
    var n := FirstFailure(plan, exitCode, minLat, maxBw, lossPerc);
    TcCommands(plan[..if n < |plan| then n + 1 else n], minLat, maxBw, lossPerc)
  }

  /** The outcome of a run of the plan: the error raised for its first failing step, if any. */
  function Outcome(plan: seq<Step>, exitCode: (nat, nat, string) -> int, minLat: string, maxBw: string, lossPerc: string): Result<(), ShapeError>
  {
    var n := FirstFailure(plan, exitCode, minLat, maxBw, lossPerc);
    if n < |plan| then Failure(ShapeError(plan[n].container, plan[n].iface, StepCode(plan[n], exitCode, minLat, maxBw, lossPerc)))
    else Success(())
  }

  /** When the scan finds one interface twice (`12: eth10` also yields `eth1`), the second `tc qdisc add`
      on that device is a separate issue of the same command, and the run stops there if it fails. */
  lemma RepeatedIfaceSecondIssueFails(c: nat, ifaces: seq<string>, exitCode: (nat, nat, string) -> int,
                                      minLat: string, maxBw: string, lossPerc: string)
    requires |ifaces| >= 2 && ifaces[0] == ifaces[1]
    requires exitCode(c, 0, TcCommand(ifaces[0], minLat, maxBw, lossPerc)) == 0
    requires exitCode(c, 1, TcCommand(ifaces[1], minLat, maxBw, lossPerc)) != 0
    ensures Outcome(Pairs(c, ifaces), exitCode, minLat, maxBw, lossPerc)
            == Failure(ShapeError(c, ifaces[0], exitCode(c, 1, TcCommand(ifaces[0], minLat, maxBw, lossPerc))))
    ensures Issued(Pairs(c, ifaces), exitCode, minLat, maxBw, lossPerc)
            == [TcCommand(ifaces[0], minLat, maxBw, lossPerc), TcCommand(ifaces[0], minLat, maxBw, lossPerc)]
  {
  }

  /** Lines 120-129: the inner loop over the interfaces found on the c-th container. */
  method ShapeContainer(c: nat, ifaces: seq<string>, exitCode: (nat, nat, string) -> int, minLat: string, maxBw: string, lossPerc: string)
    returns (issued: seq<string>, r: Result<(), ShapeError>)
    ensures issued == Issued(Pairs(c, ifaces), exitCode, minLat, maxBw, lossPerc)
    ensures r == Outcome(Pairs(c, ifaces), exitCode, minLat, maxBw, lossPerc)
  {
    ghost var steps := Pairs(c, ifaces);
    ghost var n := FirstFailure(steps, exitCode, minLat, maxBw, lossPerc);
    issued := [];
    var j := 0;
    while j < |ifaces|
      invariant j <= n
      invariant issued == TcCommands(steps[..j], minLat, maxBw, lossPerc)
    {
      var cmd := TcCommand(ifaces[j], minLat, maxBw, lossPerc);
      var code := exitCode(c, j, cmd);
      assert steps[..j + 1] == steps[..j] + [steps[j]];
      TcCommandsSnoc(steps[..j], steps[j], minLat, maxBw, lossPerc);
      issued := issued + [cmd];
      if code != 0 {
        assert n == j;
        return issued, Failure(ShapeError(c, ifaces[j], code));
      }
      j := j + 1;
    }
    assert steps[..j] == steps;
    r := Success(());
  }

  /** Lines 117-129: one `tc` command per container and interface, in order, up to and including the first
      one with a non-zero exit code, which raises. `links[c]` is the `ip link show` output of the c-th
      container and `issued` lists the commands run. */
  method ShapeNetwork(links: seq<string>, exitCode: (nat, nat, string) -> int, minLat: string, maxBw: string, lossPerc: string)
    returns (issued: seq<string>, r: Result<(), ShapeError>)
    ensures issued == Issued(ShapingPlan(links), exitCode, minLat, maxBw, lossPerc)
    ensures r == Outcome(ShapingPlan(links), exitCode, minLat, maxBw, lossPerc)
  {
    issued := [];
    var c := 0;
    while c < |links|
      invariant c <= |links|
      invariant issued == TcCommands(ShapingPlan(links[..c]), minLat, maxBw, lossPerc)
      invariant FirstFailure(ShapingPlan(links[..c]), exitCode, minLat, maxBw, lossPerc) == |ShapingPlan(links[..c])|
    {
      ghost var done := ShapingPlan(links[..c]);
      var ifaces := FindIfaces(links[c], 0);
      ShapingPlanSnoc(links, c);
      var more, res := ShapeContainer(c, ifaces, exitCode, minLat, maxBw, lossPerc);
      RunAppendPasses(done, Pairs(c, ifaces), exitCode, minLat, maxBw, lossPerc);
      issued := issued + more;
      if res.Failure? {
        ghost var upTo := ShapingPlan(links[..c + 1]);
        ShapingPlanSplit(links, c + 1);
        RunAppendFails(upTo, ShapingPlan(links)[|upTo|..], exitCode, minLat, maxBw, lossPerc);
        return issued, res;
      }
      c := c + 1;
    }
    assert links[..c] == links;
    r := Success(());
  }

  /** The commands of a stretch of the plan. */
  function TcCommands(steps: seq<Step>, minLat: string, maxBw: string, lossPerc: string): (r: seq<string>)
    ensures |r| == |steps|
    ensures forall k :: 0 <= k < |steps| ==> r[k] == TcCommand(steps[k].iface, minLat, maxBw, lossPerc)
  {
    seq(|steps|, (k: int) requires 0 <= k < |steps| => TcCommand(steps[k].iface, minLat, maxBw, lossPerc))
  }

  lemma TcCommandsSnoc(steps: seq<Step>, step: Step, minLat: string, maxBw: string, lossPerc: string)
    ensures TcCommands(steps + [step], minLat, maxBw, lossPerc)
            == TcCommands(steps, minLat, maxBw, lossPerc) + [TcCommand(step.iface, minLat, maxBw, lossPerc)]
  {
  }

  lemma TcCommandsAppend(a: seq<Step>, b: seq<Step>, minLat: string, maxBw: string, lossPerc: string)
    ensures TcCommands(a + b, minLat, maxBw, lossPerc) == TcCommands(a, minLat, maxBw, lossPerc) + TcCommands(b, minLat, maxBw, lossPerc)
  {
  }

  lemma {:induction false} FirstFailureAppend(a: seq<Step>, b: seq<Step>, exitCode: (nat, nat, string) -> int, minLat: string, maxBw: string, lossPerc: string)
    ensures var n := FirstFailure(a, exitCode, minLat, maxBw, lossPerc);
            FirstFailure(a + b, exitCode, minLat, maxBw, lossPerc)
            == if n < |a| then n else |a| + FirstFailure(b, exitCode, minLat, maxBw, lossPerc)
  {
    if a != [] {
      assert (a + b)[1..] == a[1..] + b;
      FirstFailureAppend(a[1..], b, exitCode, minLat, maxBw, lossPerc);
    } else {
      assert a + b == b;
    }
  }

  /** Running two stretches of the plan one after the other: when the first fails, the second never runs. */
  lemma RunAppendFails(a: seq<Step>, b: seq<Step>, exitCode: (nat, nat, string) -> int, minLat: string, maxBw: string, lossPerc: string)
    requires FirstFailure(a, exitCode, minLat, maxBw, lossPerc) < |a|
    ensures Issued(a + b, exitCode, minLat, maxBw, lossPerc) == Issued(a, exitCode, minLat, maxBw, lossPerc)
    ensures Outcome(a + b, exitCode, minLat, maxBw, lossPerc) == Outcome(a, exitCode, minLat, maxBw, lossPerc)
  {
    var n := FirstFailure(a, exitCode, minLat, maxBw, lossPerc);
    FirstFailureAppend(a, b, exitCode, minLat, maxBw, lossPerc);
    assert (a + b)[..n + 1] == a[..n + 1];
    assert (a + b)[n] == a[n];
  }

  /** Running two stretches of the plan one after the other: when the first succeeds, all of its commands
      are issued and the second runs as on its own. */
  lemma RunAppendPasses(a: seq<Step>, b: seq<Step>, exitCode: (nat, nat, string) -> int, minLat: string, maxBw: string, lossPerc: string)
    requires FirstFailure(a, exitCode, minLat, maxBw, lossPerc) == |a|
    ensures Issued(a + b, exitCode, minLat, maxBw, lossPerc)
            == TcCommands(a, minLat, maxBw, lossPerc) + Issued(b, exitCode, minLat, maxBw, lossPerc)
    ensures Outcome(a + b, exitCode, minLat, maxBw, lossPerc) == Outcome(b, exitCode, minLat, maxBw, lossPerc)
    ensures FirstFailure(b, exitCode, minLat, maxBw, lossPerc) == |b| ==>
              FirstFailure(a + b, exitCode, minLat, maxBw, lossPerc) == |a + b|
  {
    var m := FirstFailure(b, exitCode, minLat, maxBw, lossPerc);
    FirstFailureAppend(a, b, exitCode, minLat, maxBw, lossPerc);
    var k := if m < |b| then m + 1 else m;
    assert (a + b)[..|a| + k] == a + b[..k];
    TcCommandsAppend(a, b[..k], minLat, maxBw, lossPerc);
    if m < |b| {
      assert (a + b)[|a| + m] == b[m];
    }
  }

  // ---- run_cmd (lines 44-62) ----

  /** What one `subprocess.check_output` call ends with: the timeout, or the exit code and the captured
      standard output and error. */
  datatype Attempt = TimedOut | Exited(exitCode: int, output: bytes)

  /** How `run_cmd` ends: it returns, it propagates `CalledProcessError`, or it raises `RuntimeError` for
      output without the expected marker. `StillRetrying` is a run whose every supplied attempt timed out. */
  datatype CmdResult = Done | CalledProcessError(code: int, output: bytes) | UnexpectedOutput(output: bytes) | StillRetrying

  /** The command is retried as long as it times out; the first attempt that completes decides. An empty
      `expected` stands for the default `None`: the output is not checked. `tries` counts the attempts made. */
  method RunCmd(expected: bytes, attempts: seq<Attempt>) returns (r: CmdResult, tries: nat)
    ensures tries <= |attempts|
    ensures forall k :: 0 <= k < tries - 1 ==> attempts[k].TimedOut?
    ensures r.StillRetrying? <==> forall k :: 0 <= k < |attempts| ==> attempts[k].TimedOut?
    ensures r.StillRetrying? ==> tries == |attempts|
    ensures !r.StillRetrying? ==>
              && 0 < tries && attempts[tries - 1].Exited?
              && var a := attempts[tries - 1];
                 r == if a.exitCode != 0 then CalledProcessError(a.exitCode, a.output)
                      else if expected == [] || Contains(a.output, expected) then Done
                      else UnexpectedOutput(a.output)
    ensures r.Done? && expected != [] ==> Occurs(attempts[tries - 1].output, expected)
    ensures r.UnexpectedOutput? ==> !Occurs(r.output, expected)
  {
    tries := 0;
    while tries < |attempts|
      invariant tries <= |attempts|
      invariant forall k :: 0 <= k < tries ==> attempts[k].TimedOut?
    {
      var a := attempts[tries];
      tries := tries + 1;
      if a.Exited? {
        ContainsIff(a.output, expected);
        if a.exitCode != 0 {
          return CalledProcessError(a.exitCode, a.output), tries;
        }
        if expected != [] && !Contains(a.output, expected) {
          return UnexpectedOutput(a.output), tries;
        }
        return Done, tries;
      }
    }
    r := StillRetrying;
  }

  // ---- run_cmd_background (lines 19-41) ----

  /** One pass of the readiness loop: the seconds elapsed since the start, checked before the read, and
      the line `readline` then returns. */
  datatype Tick = Tick(elapsed: real, line: bytes)

  /** How the readiness wait ends, with the output buffered so far: the marker was seen, the timeout
      raised `RuntimeError`, or the supplied ticks ran out first. */
  datatype Readiness = Ready(buffer: bytes) | Expired(buffer: bytes) | StillWaiting(buffer: bytes)

  function Lines(ticks: seq<Tick>): (r: seq<bytes>)
    ensures |r| == |ticks| && forall k :: 0 <= k < |ticks| ==> r[k] == ticks[k].line
  {
    seq(|ticks|, (k: int) requires 0 <= k < |ticks| => ticks[k].line)
  }

  /** With a marker, lines are read until one contains it, and the time is checked against `timeout` before
      each read; the buffer is every line read, in order. Without one the process is left to run at once. */
  method WaitForOutput(expected: bytes, timeout: int, ticks: seq<Tick>) returns (r: Readiness, linesRead: nat)
    ensures linesRead <= |ticks|
    ensures r.buffer == Concat(Lines(ticks[..linesRead]))
    ensures expected == [] ==> r == Ready([]) && linesRead == 0
    ensures forall k :: 0 <= k < linesRead ==> ticks[k].elapsed <= timeout as real
    ensures forall k :: 0 <= k < linesRead - 1 ==> !Contains(ticks[k].line, expected)
    ensures r.Ready? && expected != [] ==> 0 < linesRead && Contains(ticks[linesRead - 1].line, expected)
    ensures r.Expired? ==> linesRead < |ticks| && ticks[linesRead].elapsed > timeout as real
    ensures !r.Ready? ==> forall k :: 0 <= k < linesRead ==> !Contains(ticks[k].line, expected)
    ensures r.StillWaiting? ==> linesRead == |ticks|
  {
    if expected == [] {
      assert ticks[..0] == [];
      return Ready([]), 0;
    }
    var buffer: bytes := [];
    linesRead := 0;
    while linesRead < |ticks|
      invariant linesRead <= |ticks|
      invariant buffer == Concat(Lines(ticks[..linesRead]))
      invariant forall k :: 0 <= k < linesRead ==> ticks[k].elapsed <= timeout as real
      invariant forall k :: 0 <= k < linesRead ==> !Contains(ticks[k].line, expected)
    {
      var t := ticks[linesRead];
      if t.elapsed > timeout as real {
        return Expired(buffer), linesRead;
      }
      LinesSnoc(ticks, linesRead);
      buffer := buffer + t.line;
      linesRead := linesRead + 1;
      if Contains(t.line, expected) {
        return Ready(buffer), linesRead;
      }
    }
    r := StillWaiting(buffer);
  }

  lemma LinesSnoc(ticks: seq<Tick>, n: nat)
    requires n < |ticks|
    ensures Concat(Lines(ticks[..n + 1])) == Concat(Lines(ticks[..n])) + ticks[n].line
  {
    assert Lines(ticks[..n + 1]) == Lines(ticks[..n]) + [ticks[n].line];
    ConcatSnoc(Lines(ticks[..n]), ticks[n].line);
  }

  // ---- the branch list (lines 254-266) ----

  /** `[x.name.split("/")[-1] for x in refs]`: the last path component of every remote ref name. */
  function RefBranchNames(refs: seq<string>): (r: seq<string>)
    ensures |r| == |refs|
    ensures forall i :: 0 <= i < |refs| ==> r[i] == LastPart(refs[i], '/')
  {
    seq(|refs|, (i: int) requires 0 <= i < |refs| => LastPart(refs[i], '/'))
  }

  /** The index of the first occurrence of `x` in `s`. */
  function IndexOf<T(==)>(s: seq<T>, x: T): (i: nat)
    requires x in s
    ensures i < |s| && s[i] == x && forall k :: 0 <= k < i ==> s[k] != x
  {
    if s[0] == x then 0 else 1 + IndexOf(s[1..], x)
  }

  datatype BranchError = NoHead | BranchNotFound(branch: string)

  /** `list.remove`: drops the first occurrence of `x`, or raises `ValueError` when there is none. */
  function RemoveFirst(s: seq<string>, x: string): (r: Result<seq<string>, BranchError>)
    ensures r.Failure? <==> x !in s
    ensures r.Failure? ==> r.error == NoHead
    ensures r.Success? ==> var i := IndexOf(s, x); r.value == s[..i] + s[i + 1..]
  {
    if x in s then var i := IndexOf(s, x); Success(s[..i] + s[i + 1..]) else Failure(NoHead)
  }

  /** Removing the first occurrence takes away one copy of `x` and keeps every other element. */
  lemma RemoveFirstMultiset(s: seq<string>, x: string)
    requires x in s
    ensures multiset(RemoveFirst(s, x).value) == multiset(s) - multiset{x}
    ensures |RemoveFirst(s, x).value| == |s| - 1
  {
    var i := IndexOf(s, x);
    assert RemoveFirst(s, x).value == s[..i] + s[i + 1..];
    assert s == s[..i] + [x] + s[i + 1..];
    assert multiset(s) == multiset(s[..i]) + multiset{x} + multiset(s[i + 1..]);
  }

  /** The branches of the repository: the ref names' last components without the first `HEAD`. */
  function AvailableBranches(refs: seq<string>): Result<seq<string>, BranchError>
  {
    RemoveFirst(RefBranchNames(refs), "HEAD")
  }

  /** Lines 257-266: every requested branch must be available, else the program quits at the first one that
      is not; no request means every available branch. */
  method SelectBranches(requested: seq<string>, available: seq<string>) returns (r: Result<seq<string>, BranchError>)
    ensures requested == [] ==> r == Success(available)
    ensures requested != [] ==> (r.Success? <==> forall i :: 0 <= i < |requested| ==> requested[i] in available)
    ensures requested != [] && r.Success? ==> r.value == requested
    ensures r.Failure? ==> exists i :: 0 <= i < |requested| && r.error == BranchNotFound(requested[i])
                             && requested[i] !in available
                             && forall k :: 0 <= k < i ==> requested[k] in available
  {
    if requested == [] {
      return Success(available);
    }
    var i := 0;
    while i < |requested|
      invariant i <= |requested|
      invariant forall k :: 0 <= k < i ==> requested[k] in available
    {
      if requested[i] !in available {
        return Failure(BranchNotFound(requested[i]));
      }
      i := i + 1;
    }
    r := Success(requested);
  }
}

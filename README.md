# Quantum-safe container benchmark: a Dafny model of its data path

The benchmark starts a set of containers (a JWT client, creator and verifier, a certificate authority and
two strongSwan peers), shapes their network with `tc`, loads the client with HTTP requests and records
two datasets while it runs. The first is per-request latency. The second is per-container `docker stats`
samples. It then trims the spin-up phase from both and stores them per git branch. It renders charts that
compare the branches.

This project models the logic in that pipeline that can be stated and proved, in eight modules:

- `Wrappers`: the `Option` and `Result` types used for missing keys and for exceptions.
- `Sequences`: `filter`, `min`/`max`, flattening and their properties.
- `Text`: `in`, `split`, `join`, `split(sep)[-1]`, `split(needle)[0]` over strings and bytes.
- `Telemetry`: `extract`, one raw stats snapshot to one normalised sample.
- `Streams`: the round-robin merge of the per-container streams, the extraction loop of `collect` and
  its final truncation to whole rounds.
- `Collectors`: the two collector classes, `ClientPerfCollector` and `DockerStatCollector`. Each has
  its started state, stop flag and data as fields, and its worker loop as a method over a finite input.
- `Analysis`: the decisions of `analysis.py`. These are the steady-state trim and the result object, the
  interface scan and `tc` commands, the abort-at-first-failure shaping rule, the retry rule of
  `run_cmd`, the readiness scan of `run_cmd_background` and the branch list.
- `Charts`: the data preparation of `render_charts.py`. This covers blank skipping in
  `render_time_chart`, the in-memory part of `parse_branch`, and the branch naming and averaging of
  `render_folder`.

Processes, containers, HTTP, randomness, clocks and the repository are not modelled. Their effects
become parameters:

- request outcomes and the indices `random.choices` draws;
- command attempts and exit codes;
- lines of output, each with the elapsed time at which it was read;
- remote ref names;
- the time parser `datetime.fromisoformat(...).timestamp()`, given as a function `string -> real`.

Numbers that the source keeps as Python `int` are `int`. Its floats are `real`.

## Model

| member | source | states |
|---|---|---|
| Collectors.RandomMessage | data_collection.py:54-55 | the message has exactly `message_length` characters (none for a negative length), all lowercase letters |
| Collectors.ClientPerfCollector.constructor | data_collection.py:27-32 | a new load collector keeps its URL and message length, which defaults to 5, has an empty dataset and a clear stop flag |
| Collectors.ClientPerfCollector.StartCollecting | data_collection.py:34-36 | the thread is started once: a second start is rejected with `AlreadyStarted`, and afterwards the collector counts as started |
| Collectors.ClientPerfCollector.StopCollecting | data_collection.py:38-45 | a second stop is rejected with `AlreadyStopped`; every stop leaves the flag set and the data unchanged; a first stop of a collector never started sets the flag and fails with `NotStarted`, as `join` raises; a first stop of a started collector returns the data |
| Collectors.ClientPerfCollector.LoadContinuous | data_collection.py:15-72 | one message per iteration; record i has id i, the configured length, the send time, and the response's elapsed time or exactly 9 on a read timeout; `data` is replaced only when the loop ends normally; an uncaught request error ends the run at that request; with the stop flag already set no request is sent and the empty list is stored |
| Collectors.DockerStatCollector.constructor | data_collection.py:85-91 | no container list, a count of 0, a clear stop flag and empty data |
| Collectors.DockerStatCollector.SetContainers | data_collection.py:106-109 | the list is stored and the count is its length |
| Collectors.DockerStatCollector.StartCollecting | data_collection.py:93-95 | the same start-once rule as the load collector |
| Collectors.DockerStatCollector.StopCollecting | data_collection.py:97-104 | the same stop rule as the load collector: `AlreadyStopped` on a second stop, `NotStarted` when never started, otherwise the data; the flag ends set and the data unchanged |
| Collectors.DockerStatCollector.Collect | data_collection.py:127-141 | the stored data is `Collected` of the first `consumed` generator items, cut with the corrected whole-rounds slice of the Findings row; an exception, from `extract`, the slice or the generator itself (`cont.stats`, a live stream), leaves the data unchanged and reports the thread as failed; with the stop flag already set the generator is never started and the slice of the empty list is stored |
| Collectors.ExtractAllFailureSticks | data_collection.py:133-137 | once the extraction of a prefix of the stream raises, the whole run raises |
| Collectors.CollectedShape | data_collection.py:132-141 | with the corrected slice, the stored data fails exactly on a zero container count or an extraction exception; otherwise its length is a multiple of the container count, it is less than one round short of the complete snapshots, and each entry is the extraction of the complete snapshot at the same position |
| Collectors.CollectedAsWrittenShape | data_collection.py:132-141 | `CollectedAsWritten`, with line 141 as written, fails in the same cases, stores nothing when the complete snapshots make whole rounds, and otherwise stores what the corrected slice stores |
| Telemetry.NetTotalAppend | data_collection.py:149-154 | the network total `NetTotal` of two interface lists is the sum of their totals |
| Telemetry.NetTotalRemove | data_collection.py:149-154 | taking one interface out removes exactly its rx and tx counters from `NetTotal` |
| Telemetry.NetTotalPermutation | data_collection.py:152-154 | `NetTotal` does not depend on the order in which interfaces are visited |
| Telemetry.CpuUsage | data_collection.py:161-166 | 0 when any of the four counters is missing; otherwise the quotient times the system delta is the container delta; a zero system delta raises `ZeroDivisionError` |
| Telemetry.DropFirst | data_collection.py:172 | the name is its first character followed by the result |
| Telemetry.Extract | data_collection.py:144-176 | a missing `read` raises first; the result is `None` exactly when `read` is present and `networks` is absent; otherwise it is a full record or a division error (zero memory limit or zero system delta); a record has the parsed time, the total network traffic, usage/limit as memory, the CPU ratio and the name without its first character |
| Streams.Heads | data_collection.py:124 | one round of the merge takes no more items than there are streams, and at least one while items remain |
| Streams.Tails | data_collection.py:124 | after one round each non-empty stream has lost its first item and the others are unchanged; the items left plus the round taken equal the items before |
| Streams.RoundRobin | data_collection.py:123-125 | the merge's length is the sum of the stream lengths |
| Streams.RoundRobinKeepsStreamOrder | data_collection.py:123-125 | for streams whose items carry their stream's index, picking out the items of stream k from the merge gives stream k back, in order |
| Streams.RoundRobinUntag | data_collection.py:123-125 | dropping the tags after the merge gives the merge of the untagged streams |
| Streams.MergeKeepsStreamOrder | data_collection.py:123-125 | for any streams, tagging each item with its stream does not change the merge, and the items tagged k are stream k, in order |
| Streams.RoundRobinContent | data_collection.py:123-125 | the merge holds exactly the items of all streams, with their multiplicities |
| Streams.StreamGenerator | data_collection.py:111-125 | the generator's length is the number of polled one-shot snapshots plus the number of live-stream items; what it holds, with multiplicities, is stated by `RoundRobinContent` for the merged part |
| Streams.ExtractAllKeepsComplete | data_collection.py:133-137 | the loop `ExtractAll` raises exactly when some snapshot's extraction raises; otherwise it keeps, in order, one sample per complete snapshot, each that snapshot's extraction |
| Streams.TruncateAsWrittenDropsEverything | data_collection.py:141 | the slice as written, `TruncateAsWritten` (Python's slice `SlicePrefix` with a negative stop), cuts a dataset whose length is already a multiple of the container count to nothing; the corrected slice `Truncate` keeps it whole |
| Streams.TruncateAsWrittenExample | data_collection.py:141 | four samples from two containers: `TruncateAsWritten` keeps nothing, `Truncate` all four |
| Streams.Truncate | data_collection.py:141 | fails exactly when the container count is 0; otherwise a prefix whose length is a multiple of the count and less than one round shorter than the input |
| Streams.TruncateAgrees | data_collection.py:141 | when a partial round is left over, `TruncateAsWritten` and `Truncate` agree |
| Analysis.TrimAnchor | analysis.py:147-149 | defined exactly when both datasets are non-empty; then it is at most every start and every time, and equal to one of them |
| Analysis.TrimKeepsSteadyState | analysis.py:146-151 | `Trim` fails exactly on an empty dataset; otherwise a record is kept exactly when its timestamp is after anchor + spin-up, with its multiplicity, and the result carries exactly the two datasets |
| Analysis.DigitRunEnd | analysis.py:113 | the end of the longest run of digits from a position |
| Analysis.FindIfaces | analysis.py:113-120 | every interface `FindIfaces` finds is `eth` followed by one digit, four characters, with no space |
| Analysis.FindIfacesNone | analysis.py:113-119 | with no match of the pattern (`MatchAt`) from the scan position on, no interface is found |
| Analysis.FindIfacesFirst | analysis.py:113-119 | the leftmost position where `MatchAt` holds from the scan position on is found first, and the scan resumes right after it |
| Analysis.FindIfacesFound | analysis.py:113-120 | each interface found is preceded in the `ip link show` text by one or more digits and `": "` at a position after the start of the scan |
| Analysis.TcHeadWords | analysis.py:121 | the command's fixed start splits into the words `tc qdisc add dev`, whatever follows |
| Analysis.NetemWords | analysis.py:121 | the device followed by `root netem` splits into those three words |
| Analysis.SettingWords | analysis.py:114-116 | a `delay`, `rate` or `loss` setting splits into its keyword and its value |
| Analysis.TcCommandWords | analysis.py:114-121 | the command `TcCommand` builds splits into the words `tc qdisc add dev <iface> root netem delay <lat> rate <bw> loss <loss>` |
| Analysis.Pairs | analysis.py:117-120 | one shaping step per interface of a container, in order, each numbered by its place in the scan's list, so an interface found twice gives two separate issues |
| Analysis.ShapingPlanPrefix | analysis.py:117-120 | the steps `ShapingPlan` gives for the first containers are a prefix of its plan for all of them |
| Analysis.FirstFailure | analysis.py:122-129 | the first step whose exit code is non-zero; every earlier one exited with 0 |
| Analysis.TcCommands | analysis.py:121 | one `tc` command per step, for that step's interface |
| Analysis.RunAppendFails | analysis.py:117-129 | once a stretch of the plan fails, appending more steps changes neither the commands issued (`Issued`) nor the error raised (`Outcome`) |
| Analysis.RunAppendPasses | analysis.py:117-129 | after a stretch that succeeds, `Issued` is all its commands followed by what the rest issues on its own, and `Outcome` is the rest's |
| Analysis.ShapeContainer | analysis.py:120-129 | on one container, the commands issued are `Issued` of its steps, those up to and including the first failure, and the result is `Outcome`, which names that failure |
| Analysis.RepeatedIfaceSecondIssueFails | analysis.py:113-129 | when the scan yields one interface twice, the second issue of the same `tc` command is its own step: if it alone fails, both commands were issued and the error names that interface |
| Analysis.ShapeNetwork | analysis.py:117-129 | with each exit code given per container, place in its interface list and command, over `ShapingPlan`'s containers × interfaces in order (`Issued` and `Outcome`), the commands issued are exactly those up to and including the first non-zero exit; it succeeds exactly when every code is 0; the error names the container, the interface and the code |
| Analysis.FirstFailureAppend | analysis.py:117-129 | the first failure of a concatenated plan is in the first part if there is one there, else after all of it |
| Analysis.RunCmd | analysis.py:44-62 | timed-out attempts retry the same command; the first completed attempt decides: a non-zero exit raises with its output, a zero exit returns when `expected` is empty or occurs in the output and raises otherwise; with a marker, a return means it occurs at some position of the output and `RuntimeError` means it occurs at none |
| Text.ContainsIff | analysis.py:58 | the scan behind Python's `in` finds the marker exactly when it occurs at some position |
| Analysis.WaitForOutput | analysis.py:26-40 | empty `expected` returns at once; otherwise lines are read while the elapsed time is within the timeout, the buffer is the concatenation of the lines read, readiness is at the first line containing `expected`, and expiry is a check made before a read |
| Analysis.RefBranchNames | analysis.py:255 | each name is `LastPart` of its ref on `/`: the text after the last `/`, as `split("/")[-1]` gives |
| Analysis.RemoveFirst | analysis.py:256 | `list.remove`: fails exactly when the name is absent; otherwise drops its first occurrence |
| Analysis.RemoveFirstMultiset | analysis.py:256 | removal takes out exactly one copy of the name |
| Analysis.SelectBranches | analysis.py:257-266 | no request selects every available branch; a request succeeds exactly when all its branches are available and then selects them; a failure names a requested branch that is missing |
| Charts.NumberPositions | render_charts.py:30-34 | the positions of the numbers, strictly increasing, and every number's position |
| Charts.NumberIndices | render_charts.py:31-34 | the loop collects exactly the positions of the non-blank entries |
| Charts.PositionsCount | render_charts.py:31-34 | there are as many positions as non-blank entries |
| Charts.PlotLine | render_charts.py:35-37 | the x and y lists have equal length |
| Charts.PlotLineSkipsBlanks | render_charts.py:30-37 | the k-th plotted point is the k-th non-blank entry with its own timestamp, so the values are the series with its blanks removed, in order |
| Charts.RenderTimeChart | render_charts.py:26-37 | a legend of the wrong length or a series of the wrong length is rejected; otherwise one line per zipped series, labelled only on the last chart |
| Charts.ContainerDataSpec | render_charts.py:80 | a record is in `ContainerData` of a container exactly when it is from that container, and as often |
| Charts.ContainerDataDisjoint | render_charts.py:79-80 | `ContainerData` of two different containers together is no longer than the dataset |
| Charts.Rates | render_charts.py:87-94 | the rate series has the data's length and starts with 0 |
| Charts.RatesStep | render_charts.py:87-94 | every later entry times its time step is the traffic step between the two samples |
| Charts.TrafficRate | render_charts.py:87-94 | the loop over the running previous values computes exactly `Rates` |
| Charts.RatesTelescope | render_charts.py:87-94 | summing rate × time step gives back the total traffic since the first sample |
| Charts.MovingAverageLoop | render_charts.py:96-102 | the loop computes `MovingAverage`: `[0, 0]` followed by 8/1000 of each 3-window mean |
| Charts.MovingAverageLength | render_charts.py:96-102 | `MovingAverage` starts with `[0, 0]`; its length equals the rate's when that is at least 2, and is 2 when it is 1 |
| Charts.MovingAverageBounds | render_charts.py:96-102 | each entry of `MovingAverage` after the first two lies between 8/1000 of the rate's bounds |
| Charts.SeriesMaxUnique | render_charts.py:104-121 | the maximum statement fixes the value |
| Charts.SeriesMax | render_charts.py:104-121 | the maximum skips blanks, is at least 0 and every number, and is 0 or one of them |
| Charts.Rebase | render_charts.py:124-125 | rebasing keeps the shape of the timestamp lists |
| Charts.RebaseStartsAtZero | render_charts.py:124-125 | rebased timestamps are all at least 0, one is 0, and differences are preserved |
| Charts.GlobalMax | render_charts.py:233-235 | fails exactly on no branches; otherwise the largest of the branch maxima |
| Charts.BranchName | render_charts.py:229 | the branch name is `BeforeFirst` of `.json`, as `split(".json")[0]` gives: the prefix of the file name that stops at its first `.json`: no `.json` starts inside it, and one starts right after it unless it is the whole name |
| Charts.BranchNameOfDataFile | render_charts.py:229 | the name of the file a branch's data is written to gives the branch back |
| Charts.ZipUsage | render_charts.py:282 | `zip` stops at the shortest of the four lists |
| Charts.TotalAppend | render_charts.py:276-286 | the sums of two row lists add |
| Charts.Aggregate | render_charts.py:276-286 | the nested loops sum the zipped rows of the zipped containers, and `count` is the number of those rows |
| Charts.AddRow | render_charts.py:282-286 | the sums and the count carried on from earlier tuples cover those tuples followed by every tuple of one container's zipped series |
| Charts.Averages | render_charts.py:288-290 | a zero count raises `ZeroDivisionError`; otherwise each average times the count is the sum |
| Charts.AveragesWithin | render_charts.py:276-290 | the averages of non-empty rows lie within the bounds of the rows |
| Charts.RawTimes | render_charts.py:79-82 | one list of times per charted container, in container order |
| Charts.ParseContainer | render_charts.py:80-102 | one container's times, CPU, memory, and moving average of the traffic rate |
| Charts.ParseContainers | render_charts.py:79-102 | per charted container, in order, its times, CPU, memory and averaged traffic series from its own records |
| Charts.Maxima | render_charts.py:104-121 | the three maxima of the CPU, memory and network series |
| Charts.ParseBranch | render_charts.py:60-137 | the six containers in order, the latencies, per container the CPU, memory and averaged traffic series, the rebased times, and the three maxima |

## Left out

- Threads: the concurrency of `Thread.start` and `join`, the `Event`, and the daemon kill threads are not
  modelled; of the thread only its started state is kept, for the `RuntimeError`s of a second start and of
  a join before the start. A worker run is given as the finite trace of what it handled before it saw the
  flag; `StopCollecting` returns the data the joined worker left. A worker that starts with the flag set
  stores the empty list, as its loop runs no iteration.
- Collectors.ClientPerfCollector.LoadContinuous: it does not enforce that the worker runs once, after
  `StartCollecting` and before `StopCollecting` returns. In the source a thread starts at most once and the stop joins it, so no worker
  code runs after a successful stop; the model leaves the order of calls to its caller.
- Collectors.DockerStatCollector.Collect: the same holds for its worker.
- I/O, printing, JSON load and dump, files and directories are not modelled.
- Docker, `git` and `subprocess` are not modelled. Their results are the parameters listed above.
- `requests.post` and `random.choices` are parameters (a response per request, an index function per
  message).
- matplotlib, the histograms, `numpy.percentile`, `linspace` and `clip` are not modelled.
- IEEE floating point: all ratios, times and means are exact `real` arithmetic.
- `datetime.fromisoformat` and its `ValueError` are not modelled: parsing is a total function parameter.
- `time.time` and `time.sleep`: `WaitForOutput` reads the elapsed time with each line instead.
- `argparse`, `__main__`, `run_analysis`'s docker-compose setup and the container kill loop are not modelled.
- Collectors.DockerStatCollector.Collect: the restart of an exhausted generator by the outer `while`,
  and the `APIError` retries of the listing loop, are not modelled. An error the generator raises is
  reported only by `raised`, after the consumed items; which step raised it is not recorded. The snapshots polled before the
  container list is set are a given list of rounds.
- Telemetry.Extract: other missing keys (`name`, `memory_stats`, an interface's counters) are not
  modelled as `KeyError`s; only `read`, `networks` and the four CPU counters may be absent.
- Analysis.FindIfaces: `\d` is taken as the ASCII digits only.
- Analysis.RunCmd: the attempt sequence is finite, so a run whose attempts all time out ends as
  `StillRetrying`, where the source retries forever. An empty `expected` stands for `None`.
- Analysis.WaitForOutput: the source hangs on a process that stops writing. A trace that runs out is
  reported as `StillWaiting`.
- Analysis.AvailableBranches: no contract of its own. It is `RemoveFirst` of `RefBranchNames`, and the
  missing `"HEAD"` that makes `list.remove` raise is the `NoHead` error.
- Analysis.SelectBranches: `quit(-1)` is the `BranchNotFound` failure and the message is not modelled.
- Charts.TrafficRate: it requires non-empty data and distinct consecutive times. The source raises
  `IndexError` and `ZeroDivisionError` there instead.
- Charts.RawTimes: it requires `Parsable`, for the same reason as `Charts.ParseBranch` below.
- Charts.ParseContainer: it requires non-empty data with distinct consecutive times, for the same reason
  as `Charts.TrafficRate`.
- Charts.ParseContainers: it requires `Parsable`, for the same reason as `Charts.ParseBranch` below.
- Collectors.DockerStatCollector.Collect: it stores the corrected whole-rounds slice of the Findings row,
  not line 141 as written. `Collectors.CollectedAsWrittenShape` states what the line as written stores.
- Collectors.CollectedShape: it is stated for the corrected slice. For line 141 as written, it holds
  only when the complete snapshots do not make whole rounds; otherwise nothing is stored.
- Charts.ParseBranch: it requires `Parsable` (every charted container has data with distinct consecutive
  times) for the same reason. Reading the branch file is not modelled; the two datasets are parameters.
- Charts.MovingAverageLoop: `fmean` is the exact arithmetic mean.
- Charts.BranchName: `glob`'s file order is not modelled; names are computed per file.
- Blank entries: series entries are numbers or the `""` blank that the source checks for. What produces
  blanks is not part of this model.

## Findings

| source | as written | input that shows it | evidently intended | confidence | as-written member | corrected member |
|---|---|---|---|---|---|---|
| data_collection.py:141 | `data[: -(len(data) % self.num_containers)]` slices to `data[:0]` when the length is already a multiple of the container count, so it stores no data at all | 4 samples from 2 containers: `data[:-0]` is `[]` | keep the longest prefix made of whole rounds, `data[: len(data) - len(data) % n]`, so the 4 samples are kept | high, not executed | Streams.TruncateAsWrittenExample | Streams.Truncate |

# RoutingExperiment bookkeeping, in Dafny

`adhoc_routing.cc` is an ns-3 experiment that compares ad-hoc routing protocols
(OLSR, AODV, DSDV, DSR). Most of it is scenario wiring: nodes, Wi-Fi, mobility,
applications and tracing. This project models the part that has logic of its
own, the bookkeeping of the `RoutingExperiment` object:

- **The receive callback and the throughput sampler.** `ReceivePacket` drains
  the sink socket into `bytesTotal`/`packetsReceived`, and into the never-cleared
  `TotalDataRcd`/`TotalPacketsRcd`. `CheckThroughput` appends one row with the
  counters, clears them and re-arms itself one simulated second later.
- **The protocol switch.** Selectors 1-4 map to OLSR, AODV, DSDV and DSR. Selectors
  below 4 use list routing; 4 installs DSR through its own helper. Any other
  value is fatal.
- **The end-of-run statistics.** The loop over the flow monitor's map adds the
  selected flows into the `Run*` counters. `Total* += Run* / nSources` folds them
  and clears `Run*`. The overall averages `Total* / nRuns` are printed on the run
  where the static `checker` equals `nRuns`.
- **The loop of `main`.** It gives run `i` the stream index `50 * i`.

The object is a Dafny class, `Experiment.RoutingExperiment`, whose fields are
the C++ members (plus the two function-local statics of `Run`, the rows
written so far and the pending sampler tick). Each method is proved against a
function from a snapshot of the members before the call to the members after
it (`State() == Sampled(old(State()), now, nRuns)`, ...). The properties of a
run, such as which rows are written, what Total* becomes and when the overall
summary appears, are lemmas about those functions.

Arithmetic follows the C++ types:

- every `Run*`/`Total*` field, `bytesTotal` and `packetsReceived` is a `uint32_t`, so each `+=` wraps modulo 2^32 (`FixedWidth.ToU32`);
- the flow filter compares `(int)id`, a two's-complement reinterpretation of the uint32 FlowId (`FixedWidth.AsInt32`);
- `Run* / nSources` and `Total* / nRuns` divide a `uint32_t` by an `int` converted to unsigned (`FlowStats.Divisor`);
- the delay term divides a signed 64-bit millisecond count by the packet count, truncating toward zero (`FixedWidth.TruncDiv`).

Modules:

| file | module | contents |
|---|---|---|
| wrappers.dfy | Wrappers | `Option`, `Result` |
| fixed_width.dfy | FixedWidth | uint32/int32/int64 conversions and divisions |
| decimal.dfy | Decimal | the decimal text `operator<<` writes for an int, and its inverse |
| protocol.dfy | Protocol | the protocol switch |
| flow_stats.dfy | FlowStats | the flow walk, the fold and the overall averages as functions |
| sampler.dfy | Sampler | meter, rows, and the sampler's trace over a stream of events |
| experiment.dfy | Experiment | the snapshot functions, the class, and `main`'s loop |

Behaviour of the code worth noting, which the model keeps as written:

- **Sample file name.** CheckThroughput appends rows to the decimal text of the
  global `nRuns` followed by the CSV name (adhoc_routing.cc:144-146). This is not
  a per-iteration prefix, so every run of a process appends to the same file.
  That file is never the one `main` writes the header to (adhoc_routing.cc:191),
  which `Sampler.RowsMissHeaderFile` states.
- **Meter between runs.** `bytesTotal` and `packetsReceived` are not cleared at
  the start of a run. Simulator::Destroy drops the pending tick, so the first
  row of a run also counts what arrived after the last row of the run before.
  The model keeps the meter across runs (`Snapshot.Between` does not constrain
  it), and `Sampler.ReplayWindow` states what each row carries.
- **Column count.** The header names six columns, but every row has seven
  values: m_nSources is written after m_nSinks without a header of its own.
  `Sampler.HeaderColumns` and `Sampler.Sample` keep both as written.
- **Statistics counters.** The `Run*` counters are zeroed after the fold at the
  end of each run, not at its start. A run started between runs therefore
  starts from zero (`Snapshot.Between`, kept by `Experiment.RunKeepsBetween`).

## Model

| member | source | states |
|---|---|---|
| FixedWidth.ToU32 | adhoc_routing.cc:62-72 | storing a value that already fits a uint32_t leaves it unchanged |
| FixedWidth.AsInt32 | adhoc_routing.cc:463 | the `(int)` cast of a FlowId is non-negative exactly when the id is below 2^31, equals the id then, and converts back to the same uint32_t |
| FixedWidth.QuotIsDiv | adhoc_routing.cc:489-508 | the unsigned division of the averages is floor division: the quotient q satisfies q*d <= a < q*d + d |
| FixedWidth.QuotAtMost | adhoc_routing.cc:489-508 | an unsigned quotient never exceeds its dividend |
| FixedWidth.TruncDivRounds | adhoc_routing.cc:484 | the delay division truncates toward zero: the remainder has the dividend's sign and is smaller in magnitude than the divisor |
| FixedWidth.WrapAdd | adhoc_routing.cc:478-481 | wrapping an intermediate sum into a uint32_t does not change the final stored value, so successive `+=` wrap like one sum |
| Decimal.NatToString | adhoc_routing.cc:144-145 | the text of a natural number is non-empty, all digits, and has no leading zero |
| Decimal.IntToString | adhoc_routing.cc:144-145 | the text of an int is non-empty and starts with '-' exactly when the value is negative |
| Decimal.IntToStringRoundTrip | adhoc_routing.cc:144-146 | reading the text back yields the number that was written |
| Decimal.IntToStringInjective | adhoc_routing.cc:144-146 | different nRuns values give different file-name prefixes |
| Protocol.Select | adhoc_routing.cc:321-353 | selection succeeds exactly for selectors 1-4, naming OLSR, AODV, DSDV and DSR; list routing is used exactly when the selector is below 4; any other selector fails with "No such protocol:" followed by the selector's decimal text |
| Protocol.NameIdentifiesSelector | adhoc_routing.cc:321-337 | the protocol name an accepted selector writes into the rows determines the selector, and the reference reader recovers it, in both directions |
| Protocol.DefaultIsAodv | adhoc_routing.cc:82 | the constructor's selector 2 selects AODV over list routing |
| FlowStats.SelectedIff | adhoc_routing.cc:463 | for ids below 2^31, a flow passes the filter exactly when its id is at most nSources |
| FlowStats.TallyIsSumOfSelected | adhoc_routing.cc:456-481 | the exact sums of the walk equal the plain sum over the flows the filter keeps (independent reference definition) |
| FlowStats.ReduceSkipsUnselected | adhoc_routing.cc:463 | a flow that fails the filter leaves every Run* counter unchanged |
| FlowStats.ReduceAddsSelected | adhoc_routing.cc:478-485 | a selected flow adds its tx/rx packets and bytes and its delay term to the Run* counters, each stored modulo 2^32 |
| FlowStats.ReduceAddsDelay | adhoc_routing.cc:482-485 | a selected flow with no received packets leaves RunDelay unchanged; otherwise, for a non-negative delay sum, RunDelay grows by delaySum_ms / rxPackets (integer division), modulo 2^32 (TruncDivRounds covers negative sums) |
| FlowStats.ReduceIsU32 | adhoc_routing.cc:478-484 | starting from uint32_t values, every Run* counter stays within uint32_t range through the walk |
| FlowStats.ReduceNext | adhoc_routing.cc:478-485 | one step of the walk, field by field: the four sums always, the delay only when rxPackets is non-zero, nothing for an unselected flow |
| FlowStats.ReduceIsWrappedTally | adhoc_routing.cc:456-488 | after the loop every Run* counter equals its pre-loop value plus the sum over the selected flows, modulo 2^32 |
| FlowStats.ReduceExact | adhoc_routing.cc:456-488 | when no sum reaches 2^32, after the loop every Run* counter is exactly its pre-loop value plus the sum over the selected flows |
| FlowStats.ReduceConcat | adhoc_routing.cc:456-488 | walking two lists of flows one after the other is walking their concatenation |
| FlowStats.TallyConcat | adhoc_routing.cc:456-488 | the sums over a concatenation are the sums of the parts |
| FlowStats.TallyRemove | adhoc_routing.cc:456-481 | taking any one flow out of the list takes exactly its share out of the sums |
| FlowStats.TallyOrderIrrelevant | adhoc_routing.cc:456-488 | any two lists holding the same flows (the same multiset) give the same sums, so the order of the flow map does not matter |
| FlowStats.FoldRunsNext | adhoc_routing.cc:496-500 | folding one more run adds that run's per-source averages, taken from zeroed Run* counters, to the Total* counters of the runs before |
| FlowStats.FoldRunsIsSum | adhoc_routing.cc:496-500 | after any number of runs, Total* equals its initial value plus the sum of each run's per-source averages, modulo 2^32 |
| FlowStats.SumPerSourceConcat | adhoc_routing.cc:496-500 | the summed per-source averages of two groups of runs add up |
| FlowStats.SumPerSourceRemove | adhoc_routing.cc:496-500 | taking any one run out of the list takes exactly its per-source averages out of the summed averages |
| FlowStats.SumPerSourceOrderIrrelevant | adhoc_routing.cc:496-500 | any reordering of the same runs (the same multiset) gives the same summed per-source averages |
| FlowStats.FoldOrderIrrelevant | adhoc_routing.cc:496-500 | any reordering of the same runs (the same multiset) leaves Total* the same |
| FlowStats.SumPerSourceRepeat | adhoc_routing.cc:496-500 | k identical runs contribute k times one run's per-source averages |
| FlowStats.FoldIdenticalRuns | adhoc_routing.cc:496-500 | k identical runs folded from zero give Total* equal to k times one run's averages, modulo 2^32 |
| FlowStats.PerSourceIsU32 | adhoc_routing.cc:496-500 | every per-source average `Run* / nSources` fits in the uint32_t it is added into |
| FlowStats.OverallOfOneRun | adhoc_routing.cc:496-508 | with nRuns = 1, the overall averages over Total* folded from zero are exactly the run's per-source averages |
| FlowStats.OverallOfIdenticalRuns | adhoc_routing.cc:496-508 | when nRuns identical runs fit in uint32_t, the overall averages equal the single run's per-source averages |
| FlowStats.FiveSourceScenario | adhoc_routing.cc:456-500 | five source flows with 10 packets, 1000 bytes and 50 ms each, plus a sixth flow, give Run* = (50, 5000, 50, 5000, 25) and Total* = (10, 1000, 10, 1000, 5) |
| Sampler.ReceiveConcat | adhoc_routing.cc:125-131 | draining the socket in two batches counts the same as draining all packets at once |
| Sampler.ReceiveOne | adhoc_routing.cc:127-131 | draining a single packet adds its size to the byte counter and 1 to the packet counter, modulo 2^32 |
| Sampler.ReceiveNext | adhoc_routing.cc:125-131 | each drained packet adds its size to the byte counter and 1 to the packet counter, modulo 2^32 |
| Sampler.RowsMissHeaderFile | adhoc_routing.cc:144-146 | the file the rows go to is never the file that holds the header (its name is strictly longer) |
| Sampler.ReplaySampleCount | adhoc_routing.cc:139-159 | the sampler writes exactly one row per tick |
| Sampler.ReplayRows | adhoc_routing.cc:147-158 | row k is written at the armed time plus k seconds and carries the run's fixed columns and file |
| Sampler.RunTrace | adhoc_routing.cc:139-159 | a run writes one row at second 0 and one per later tick, at seconds 0, 1, 2, ..., all to the run's file |
| Sampler.ReplayWindow | adhoc_routing.cc:142-157 | a row carries the meter plus exactly what arrived since the previous tick, and the next window starts from cleared counters |
| Experiment.Simulated | adhoc_routing.cc:125-158 | the event loop changes only the meters, the rows and the pending tick, and leaves a tick armed |
| Experiment.SimulatedIsReplay | adhoc_routing.cc:125-158 | the member-level event loop equals the sampler's trace: the same rows, final meter and armed time, with the lifetime counters counting every delivered packet |
| Experiment.RunKeepsBetween | adhoc_routing.cc:216-515 | a run started between runs ends between runs with the given configuration and selector; it fails exactly on an unknown selector, and then writes no row, folds nothing and leaves checker as it was; on success checker grows by one and the protocol name is set |
| Experiment.SimulationRows | adhoc_routing.cc:437-449 | a run's rows are the sampler's trace of a tick at time 0 followed by the traffic |
| Experiment.RunAppendsRows | adhoc_routing.cc:437-449 | a successful run keeps the earlier rows and appends 1 + (ticks) rows at seconds 0, 1, 2, ..., all to the file named after nRuns |
| Experiment.RunFoldsTotals | adhoc_routing.cc:456-511 | a successful run folds the per-source averages of its selected flows into Total*, reports them as this run's averages, and reports the overall averages of the new Total* exactly when checker equals nRuns |
| Experiment.ProgressStep | adhoc_routing.cc:209-213 | a run that keeps the selector, ends between runs, writes only to the nRuns-named file and folds run i's flows advances main's loop from i to i + 1 |
| Experiment.RunStep | adhoc_routing.cc:209-213 | a turn with a known protocol succeeds, advances the loop by one run, appends 1 + (ticks) rows, reports run i's per-source averages, and carries the overall summary, Total* / nRuns over the new Total*, exactly on run nRuns - 1 (counting from 0) |
| Experiment.RoutingExperiment.constructor | adhoc_routing.cc:76-94 | the meter, every Run* and Total* counter are 0, the CSV name is the default, mobility tracing is off and the selector is 2; TotalDataRcd/TotalPacketsRcd stay unconstrained |
| Experiment.RoutingExperiment.CommandSetup | adhoc_routing.cc:173-182 | each given option overrides its member and nothing else changes; the returned name is the resulting CSV name |
| Experiment.RoutingExperiment.CountPacket | adhoc_routing.cc:127-131 | one drained packet is counted on both the meter and the lifetime counters exactly as draining that single packet, and no other member changes |
| Experiment.RoutingExperiment.ReceivePacket | adhoc_routing.cc:120-137 | after draining the socket, both the meter and the lifetime counters have counted every packet's size and the packet itself, modulo 2^32 |
| Experiment.RoutingExperiment.CheckThroughput | adhoc_routing.cc:139-159 | one row with the pre-reset counters is appended to the nRuns-named file, both counters are 0, and the next tick is armed one second later |
| Experiment.RoutingExperiment.SimulateTraffic | adhoc_routing.cc:449 | running the events leaves the members the event loop specifies |
| Experiment.RoutingExperiment.AddFlow | adhoc_routing.cc:463-485 | a flow that passes the `(int)id <= nSources` filter adds its contribution to Run* modulo 2^32; any other flow leaves Run* unchanged; no other member changes |
| Experiment.RoutingExperiment.CollectFlowStats | adhoc_routing.cc:456-488 | after the loop the Run* counters are the walk over the flows from their pre-loop values, and nothing else changes |
| Experiment.RoutingExperiment.RunAverages | adhoc_routing.cc:489-494 | the "this run" figures are every Run* counter divided by nSources as uint32_t division |
| Experiment.RoutingExperiment.FoldRun | adhoc_routing.cc:496-500 | Total* gains Run* / nSources and every Run* counter is 0 afterwards; nothing else changes |
| Experiment.RoutingExperiment.OverallAverages | adhoc_routing.cc:501-510 | the overall figures are produced exactly when checker equals nRuns, and are Total* / nRuns |
| Experiment.RoutingExperiment.FoldAndReport | adhoc_routing.cc:489-511 | the end of Run: this run's averages, the fold, the overall averages when checker equals nRuns, and checker + 1 |
| Experiment.RoutingExperiment.Measure | adhoc_routing.cc:437-511 | a measured run: a row at time 0, iteration + 1, the traffic, the pending tick dropped, the flows collected and folded, and the report of the collected counters |
| Experiment.RoutingExperiment.Configure | adhoc_routing.cc:219-234 | the run's parameters are stored and the protocol name is the placeholder "protocol" |
| Experiment.RoutingExperiment.Run | adhoc_routing.cc:216-515 | the members afterwards and the outcome are those of the run function: only the configuration and the fatal message on an unknown selector, otherwise a whole measured run |
| Experiment.LoopStep | adhoc_routing.cc:209-213 | a successful turn i, as IterationTurn states it, moves main's loop state (stream indices, report figures, rows, Total*, overall summary) from turn i to turn i + 1 |
| Experiment.IterationTurn | adhoc_routing.cc:209-213 | one turn of main's loop returns exactly what Run reports for run i; it fails exactly on an unknown selector, leaving rows and Total* as they were; otherwise it advances the loop by one run, appends 1 + (ticks) rows, reports run i's per-source averages, and on run nRuns - 1 reports Total* / nRuns over the final Total* |
| Experiment.RunIterations | adhoc_routing.cc:206-213 | run i gets stream index 50 * i; report j carries run j's per-source averages; only the last report carries the overall summary, which is Total* / nRuns over the final Total*; Total* is the fold of all runs' flows; every row goes to the nRuns-named file and each run adds 1 + (its ticks) rows; an unknown selector aborts on the first run with no row written |
| Experiment.Setup | adhoc_routing.cc:184-199 | a fresh experiment between runs with no rows and zero totals, the command-line selector or 2, and the six header columns written to the configured CSV name |
| Experiment.MainLoop | adhoc_routing.cc:201-213 | with nRuns = 1 and five sources: an unknown selector writes no row; otherwise the single report carries the run's per-source averages, its overall summary equals them, 1 + (ticks) rows go to "1" + the CSV name, and Total* is the fold of the run's flows |
| Experiment.ProgramMain | adhoc_routing.cc:184-214 | the setup followed by main's loop: the header file and columns, the selector, and everything MainLoop states about the single run |

## Left out

- ns-3 scenario wiring (adhoc_routing.cc:237-407): nodes, Wi-Fi PHY/MAC, mobility, the internet stack, addresses and the OnOff/PacketSink applications are foreign library calls. Their effect enters the model only as the traffic events and flow records each run is given.
- `SetupPacketReceive` and the sink port only connect the socket to `ReceivePacket`. The socket's packets are a parameter of `ReceivePacket`.
- Random application start times (adhoc_routing.cc:384-386): they come from a random-number generator. `streamIndex` is passed to `Run` and recorded by `RunIterations` but used by nothing the model contains, since only the random streams read it.
- The discrete-event kernel (`Simulator::Schedule/Stop/Run/Destroy`): a run's events come as a sequence, and a tick fires at the time it was armed for. The 150 s stop time is not enforced on that sequence. Destroy is modelled as dropping the pending tick.
- Tracing, animation, pcap, flow-monitor XML output and the trace-name string (adhoc_routing.cc:396-451): this is output plumbing. The static `iteration` is kept only as a counter.
- `CheckForLostPackets` and the flow classifier: the flow monitor's map is given as a sequence of flow records in ascending FlowId order.
- File I/O and stream formatting: rows are appended to a sequence and tagged with the file name they would go to. Truncating the CSV file for the header is represented only by the header's file name and columns.
- Floating point: the kbps figures (adhoc_routing.cc:142, 494, 509) are exact rationals over the integer counters, with no IEEE rounding or printing. The transmit power is a `real` copied into the rows.
- Command-line parsing (adhoc_routing.cc:176-180): each option arrives already parsed, as an `Option` value.
- `NS_FATAL_ERROR` ends the process. The model returns it as a `Failure` carrying the message, and nothing afterwards runs.
- `delaySum` is an ns-3 `Time`. The model takes `GetMilliSeconds()` of it as a given signed 64-bit value.
- TotalDataRcd/TotalPacketsRcd are never initialised by the constructor. The model starts them at an unconstrained value and states nothing about their contents beyond what ReceivePacket adds.
- Experiment.RoutingExperiment.Run: requires nSources != 0 whenever the selector is known. The source divides by nSources unguarded, and a zero is a crash the model does not represent.
- Experiment.RoutingExperiment.RunAverages, Experiment.RoutingExperiment.FoldRun, Experiment.RoutingExperiment.FoldAndReport and Experiment.RoutingExperiment.Measure require nSources != 0 for the same reason.
- Experiment.RunIterations: requires nSources != 0 and one traffic and flow sequence per run. It starts from a fresh experiment's statics (checker 1). `main` fixes nRuns at 1 and five sources, which `Experiment.ProgramMain` instantiates.
- Experiment.MainLoop: requires a fresh experiment (checker 1, no rows, Total* zero), which is what `main` has when its loop starts. It states the loop for `main`'s constants only: nRuns 1 and five sources.
- RoutingExperiment has one object and the statics are per process. The model keeps `iteration` and `checker` as fields of the one experiment object.

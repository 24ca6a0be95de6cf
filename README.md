# osmo-gsm-tester: the srsRAN, Amarisoft and Qualcomm-diag process wrappers

osmo-gsm-tester drives 2G/4G test suites. It starts network elements and modems, locally on
the master host or over SSH on remote hosts, watches what they print, and collects their
artifacts afterwards. This project models the decision logic inside the wrappers for these
processes:

- the srsUE modem (`ms_srs.py`), including its metrics checker `srsUEMetrics`;
- the srsENB eNodeB (`enb_srs.py`);
- the Amarisoft UE (`ms_amarisoft.py`);
- the Qualcomm diagnostics monitor and its `scat` parser (`qc_diag.py`);
- two generations of the srsEPC core-network wrapper (`obj/epc_srs.py` and `srs_epc.py`).

A process handle is a value: its name, its argument vector, what it has printed so far and
whether it has terminated. Every remote-host action (creating a directory, copying a file
to or from the host, patching a binary, setting capabilities, creating a network namespace)
is an operation whose success the environment decides; the model passes that decision in as
a function `ok`. The exit code of every script or helper command is decided the same way by
a function `exitOf`.

A Python call that raises becomes an `Err`/`Fail` result carrying the message. A call that
returns becomes `Ok`/`Pass`. Objects whose methods update their attributes are Dafny classes
(`SrsUe`, `SrsEnb`, `AmarisoftUe`, `ScatParser`, `QcDiagUe`, `EpcSrs.SrsEpc`,
`SrsEpc.SrsEpc`) with those attributes as fields. Lookup tables, string builders and console
observers are functions. Loops in the source are methods with loops, proved against a
specification function.

Modules:

- `Text` holds the Python string operations the wrappers use: `find`, `rfind`, `in`,
  `split`, `splitlines`, `count`, `replace(x, '')`, `upper` (on ASCII letters), `str(int)`
  and `hex`.
- `Base` holds results, configuration values and the flat `config.overlay`, run nodes,
  process handles and the staging loop over remote operations.
- `Tasks` holds the pre-run and post-run script runner, which the srsUE and srsENB wrappers
  share word for word.
- One module per wrapper file: `MsSrs`, `UeMetrics`, `EnbSrs`, `MsAmarisoft`, `QcDiag`,
  `EpcSrs`, `SrsEpc`.

Configuration namespaces (`values['ue']`, `values['enb']`, ...) are maps from keys to scalar
values. `config.overlay` is modelled only for the flat scalar patches the wrappers apply: every
key of the patch replaces or adds, every other key survives.

## Model

| member | source | states |
|---|---|---|
| MsSrs.SymbolSize | src/osmo_gsm_tester/obj/ms_srs.py:68-75 | the FFT symbol size is one of 128, 768, 1024 and 1536 |
| MsSrs.BaseSrateTable | src/osmo_gsm_tester/obj/ms_srs.py:68-78 | 6, 50 and 75 PRB give 1.92, 11.52 and 15.36 MHz; every other PRB count, 15, 25 and 100 included, gives 23.04 MHz; the rate is always the symbol size times 15000 |
| MsSrs.ZmqFreqPlan | src/osmo_gsm_tester/obj/ms_srs.py:341-367 | raises exactly for a carrier count other than 1, 2 and 4 and for 4 carriers with 2 ports; gives no frequency table exactly for the port/NR-carrier combinations the source leaves without a branch |
| MsSrs.ZmqFreqPlanShape | src/osmo_gsm_tester/obj/ms_srs.py:341-362 | every table has one channel per carrier and port; channel k receives on carrier k/ports's downlink frequency and transmits 120 MHz below it |
| MsSrs.ZmqFreqSuffix | src/osmo_gsm_tester/obj/ms_srs.py:341-367 | the frequency suffix raises exactly when the table does and is empty when there is no table |
| MsSrs.ZmqSisoSuffix | src/osmo_gsm_tester/obj/ms_srs.py:343-345 | one carrier on one port without NR carriers gives `,rx_freq0=2630e6,tx_freq0=2510e6` |
| MsSrs.ZmqRfDevArgs | src/osmo_gsm_tester/obj/ms_srs.py:335-369 | succeeds exactly when the frequency suffix does; the result starts with the eNB's arguments for the UE and ends in `,id=ue,base_srate=<base sample rate>` |
| MsSrs.ZmqBaseSrateReadBack | src/osmo_gsm_tester/obj/ms_srs.py:336-369 | the last `=` field of the ZMQ arguments is all digits and its decimal value is the base sample rate |
| MsSrs.WithSeparator | src/osmo_gsm_tester/obj/ms_srs.py:376 | the arguments stay a prefix, at most one character is added, the result is empty exactly when the arguments are, and a non-empty result ends in `,` |
| MsSrs.WithSeparatorIdempotent | src/osmo_gsm_tester/obj/ms_srs.py:376 | adding the separator a second time changes nothing |
| MsSrs.UeB200Args | src/osmo_gsm_tester/obj/ms_srs.py:373-394 | the configured B200 arguments stay a prefix of the edited string |
| MsSrs.UeB200ArgsClock | src/osmo_gsm_tester/obj/ms_srs.py:376-391 | 75 PRB puts the 15.36 MHz master clock right after the separated arguments; every other PRB count adds only the frame setting |
| MsSrs.MasterClockIsBaseSrate | src/osmo_gsm_tester/obj/ms_srs.py:77-78 | the `master_clock_rate=15.36e6,` text written for 75 PRB is that cell's base sample rate in MHz with two decimals, and those two decimals lose nothing |
| MsSrs.SameName | src/osmo_gsm_tester/obj/ms_srs.py:292-305 | a file placed in the remote and in the local directory keeps its name |
| MsSrs.RemoteMirrorsLocal | src/osmo_gsm_tester/obj/ms_srs.py:292-305 | every remote artifact carries the file name of its local counterpart, and the remote install directory is named after the local one |
| MsSrs.BaseUeValuesKeys | src/osmo_gsm_tester/obj/ms_srs.py:307-332 | before the radio edits the `ue` namespace holds the antenna count, the OPc, the three chosen file names, the boolean pcap flag and `rf_dev_sync` |
| MsSrs.PathStage | src/osmo_gsm_tester/obj/ms_srs.py:313-332 | the file-name, pcap and sync overlays set exactly their keys and keep the antenna count and the OPc |
| MsSrs.SyncKeepsSettings | src/osmo_gsm_tester/obj/ms_srs.py:324-332 | the `rf_dev_sync` pass-through does not change the additional arguments or the carrier counts read before it |
| MsSrs.BaseFromMerged | src/osmo_gsm_tester/obj/ms_srs.py:307-332 | every key `configure` does not set itself is present, with the same value, exactly when the merged defaults/`modem`/resource configuration has it |
| MsSrs.UeValuesPrecedence | src/osmo_gsm_tester/obj/ms_srs.py:307-309 | for every other key the resource configuration wins over the `modem` section, which wins over the defaults |
| MsSrs.UeValuesKeepsBase | src/osmo_gsm_tester/obj/ms_srs.py:335-394 | the radio edits add or change `rf_dev_args` only |
| MsSrs.RfEditKeeps | src/osmo_gsm_tester/obj/ms_srs.py:370 | setting `rf_dev_args` adds that key and keeps every other |
| MsSrs.UeValuesPaths | src/osmo_gsm_tester/obj/ms_srs.py:313-318 | `metrics_filename`, `log_filename` and `pcap_filename` in the rendered namespace lie in the remote run directory exactly when the UE is remote, in the local run directory otherwise |
| MsSrs.UeValuesZmq | src/osmo_gsm_tester/obj/ms_srs.py:335-370 | a ZMQ UE gets the ZMQ builder's string with the carrier counts converted by Python's `int()` from the merged configuration; `configure` fails exactly when a count does not convert or the builder fails |
| MsSrs.UeValuesNonZmq | src/osmo_gsm_tester/obj/ms_srs.py:328-394 | for any other radio type building the namespace fails exactly when a carrier count does not convert |
| MsSrs.CarrierCountsRead | src/osmo_gsm_tester/obj/ms_srs.py:328-329 | absent counts are 1 and 0; counts given as numbers or as their decimal text (`"2"`) are those numbers; non-numeric text raises |
| MsSrs.RrcConnectedMeaning | src/osmo_gsm_tester/obj/ms_srs.py:409-413 | connected exactly when some `RRC Connected` has no `RRC IDLE` at or after it; never connected without `RRC Connected`; always connected when only `RRC Connected` was printed |
| MsSrs.GetCounter | src/osmo_gsm_tester/obj/ms_srs.py:447-464 | succeeds exactly for the eight known counter names and then returns the count of that name's marker |
| MsSrs.CounterMarkersDistinct | src/osmo_gsm_tester/obj/ms_srs.py:447-464 | different counters count different markers; the RRC transition counters count the markers `is_rrc_connected` compares |
| MsSrs.DigitsEnd | src/osmo_gsm_tester/obj/ms_srs.py:426 | a `[0-9]+` run ends at the first non-digit |
| MsSrs.MatchAt | src/osmo_gsm_tester/obj/ms_srs.py:426 | a match of `[0-9]+(?:\.[0-9]+){3}` at a position covers four dot-separated digit runs |
| MsSrs.FirstMatchFrom | src/osmo_gsm_tester/obj/ms_srs.py:426 | the match found is the leftmost one: no position before it starts a match |
| MsSrs.FirstQuad | src/osmo_gsm_tester/obj/ms_srs.py:426-427 | `findall(...)[0]` is a dotted quad; there is none exactly when no position of the line starts a match |
| MsSrs.LastLineWith | src/osmo_gsm_tester/obj/ms_srs.py:423-425 | the index found is a line containing the marker, with no later line containing it, or -1 when no line does |
| MsSrs.AssignedAddrRegistered | src/osmo_gsm_tester/obj/ms_srs.py:415-428 | an extracted address is four dot-separated digit runs, and the UE then counts as registered |
| MsSrs.AddrOfLastLine | src/osmo_gsm_tester/obj/ms_srs.py:423-427 | the address comes from the last line carrying the attach message |
| MsSrs.FindLastLineWith | src/osmo_gsm_tester/obj/ms_srs.py:424-425 | the reverse line loop stops at the last line carrying the marker |
| MsSrs.GetAssignedAddr | src/osmo_gsm_tester/obj/ms_srs.py:419-428 | IPv6 raises; otherwise the result is the first dotted quad of the last attach line, `None` without one, and a raise for an attach line without an address |
| MsSrs.StartArgv | src/osmo_gsm_tester/obj/ms_srs.py:254-255 | the command line is the binary, the configuration file, the network namespace option, then exactly the additional arguments |
| MsSrs.SrsUe.Create | src/osmo_gsm_tester/obj/ms_srs.py:89-113 | the object exists exactly for `zmq`, `uhd`, `soapy` and `bladerf`; it starts without a process and without the metrics file |
| MsSrs.SrsUe.SplitAdditionalArgs | src/osmo_gsm_tester/obj/ms_srs.py:324-326 | the loop yields every entry's whitespace split, in order |
| MsSrs.SrsUe.BuildRfDevArgs | src/osmo_gsm_tester/obj/ms_srs.py:335-394 | the step-by-step `rf_dev_args` edits yield the ZMQ builder's string, the B200 edit, or no override |
| MsSrs.SrsUe.Configure | src/osmo_gsm_tester/obj/ms_srs.py:285-407 | fails without `lib/` or the binary, having recorded only the install directory; otherwise fixes the local files, sets the remote layout exactly for a remote UE, renders the namespace `UeValues` describes (a carrier-count attribute changes only when its `int()` conversion succeeds) and, for a remote UE, stages the install tree and configuration in the source's order |
| MsSrs.SrsUe.Record | src/osmo_gsm_tester/obj/ms_srs.py:292-329 | stores the paths and settings `configure` computed and nothing else |
| MsSrs.SrsUe.ComposeValues | src/osmo_gsm_tester/obj/ms_srs.py:307-394 | the rendered namespace, pcap flag, additional arguments and carrier counts are the ones the specification functions give |
| MsSrs.SrsUe.ReadSettings | src/osmo_gsm_tester/obj/ms_srs.py:307-332 | the settings are read from the namespace before the radio edits, the carrier counts through Python's `int()` (a failed conversion is returned as the error) |
| MsSrs.SrsUe.ScpBackMetrics | src/osmo_gsm_tester/obj/ms_srs.py:146-167 | at most once: a second call copies nothing; a first call stops the process, copies only for a remote UE, fails only when asked to raise and the copy fails, and otherwise sets the flag |
| MsSrs.SrsUe.Cleanup | src/osmo_gsm_tester/obj/ms_srs.py:119-138 | nothing without a process or for a local UE; otherwise the metrics pull (unless already copied), the log pull and, with pcap on, the pcap pull, every failure swallowed, and the flag set |
| MsSrs.SrsUe.Connect | src/osmo_gsm_tester/obj/ms_srs.py:220-236 | passes exactly when the install has `lib/` and the binary, the `ue` namespace builds, a remote UE's four staging steps all succeed, every pre-run script passes and all three preparation steps succeed; then srsUE runs with its command line, and a failure leaves the process as it was |
| MsSrs.SrsUe.PrerunAndStart | src/osmo_gsm_tester/obj/ms_srs.py:226-232 | the launch happens exactly when every pre-run script passes and the preparation succeeds |
| MsSrs.SrsUe.StartProcess | src/osmo_gsm_tester/obj/ms_srs.py:238-283 | the RPATH patch, the capabilities and the network namespace come first; the process is launched with the start command line exactly when all three succeed |
| MsSrs.SrsUe.VerifyMetric | src/osmo_gsm_tester/obj/ms_srs.py:466-470 | with the metrics copied back the verdict is `verify`'s on the table; a failed copy rejects |
| UeMetrics.AddInPlace | src/osmo_gsm_tester/obj/ms_srs.py:516 | numpy `+=`: element-wise for equal lengths, broadcast for a single element, an error otherwise; the length is kept |
| UeMetrics.SelectColumnsSum | src/osmo_gsm_tester/obj/ms_srs.py:503-516 | `a+b+...` selects the element-wise sum of the columns when all exist with one common non-zero length |
| UeMetrics.SelectFromSum | src/osmo_gsm_tester/obj/ms_srs.py:505-516 | each round of the selection loop adds the next column to the accumulator |
| UeMetrics.Stride | src/osmo_gsm_tester/obj/ms_srs.py:523-525 | a start beyond the series gives an empty slice |
| UeMetrics.StrideLength | src/osmo_gsm_tester/obj/ms_srs.py:523-525 | `xs[start::n]` has as many elements as steps of `n` fit before the end |
| UeMetrics.StrideIndex | src/osmo_gsm_tester/obj/ms_srs.py:523-525 | element i of `xs[start::n]` is `xs[start + i*n]` |
| UeMetrics.StrideOfBlocks | src/osmo_gsm_tester/obj/ms_srs.py:523-525 | on m blocks of n samples each carrier's stride has m samples, one from each block |
| UeMetrics.FoldCarriersPerInstant | src/osmo_gsm_tester/obj/ms_srs.py:519-525 | with one sample per carrier and instant, the fold gives one sum per instant |
| UeMetrics.FoldFromPerInstant | src/osmo_gsm_tester/obj/ms_srs.py:524-525 | each round of the fold loop adds the next carrier to every instant's partial sum |
| UeMetrics.FoldTwoCarriersExample | src/osmo_gsm_tester/obj/ms_srs.py:519-525 | two carriers over two instants fold `[10, 20, 30, 40]` into `[30, 70]` |
| UeMetrics.NumCarriers | src/osmo_gsm_tester/obj/ms_srs.py:521 | the carrier count is the largest `cc` value plus one: above every carrier index and one more than some index; it is defined whenever the column is non-empty with a whole, non-negative maximum |
| UeMetrics.Average | src/osmo_gsm_tester/obj/ms_srs.py:528 | the average is NaN exactly for an empty series |
| UeMetrics.MaxOf | src/osmo_gsm_tester/obj/ms_srs.py:533 | the maximum bounds every sample and is one of them |
| UeMetrics.MinOf | src/osmo_gsm_tester/obj/ms_srs.py:538 | the minimum is below every sample and is one of them |
| UeMetrics.AverageBetween | src/osmo_gsm_tester/obj/ms_srs.py:528 | the average lies between the smallest and the largest sample |
| UeMetrics.AverageWithin | src/osmo_gsm_tester/obj/ms_srs.py:528 | samples within bounds average within those bounds |
| UeMetrics.RollingAverages | src/osmo_gsm_tester/obj/ms_srs.py:533-538 | the valid convolution with `ones(w)/w` averages each window of w samples; a window longer than the series averages the whole series over w; an empty series or a window below one raises |
| UeMetrics.RollingWindowOne | src/osmo_gsm_tester/obj/ms_srs.py:533 | with a window of one the rolling averages are the samples |
| UeMetrics.TrimLeadingZeros | src/osmo_gsm_tester/obj/ms_srs.py:536 | the result is a suffix, everything dropped is zero, and a non-empty result starts with a non-zero sample |
| UeMetrics.TrimLeadingZerosIdempotent | src/osmo_gsm_tester/obj/ms_srs.py:536 | trimming twice trims nothing more |
| UeMetrics.TrimKeepsInnerZeros | src/osmo_gsm_tester/obj/ms_srs.py:536 | a series with a non-zero first sample is left whole, zeros inside it included |
| UeMetrics.CriterionSymbols | src/osmo_gsm_tester/obj/ms_srs.py:477-479 | success means the criterion's symbol holds, and the opposite symbol holds exactly when it does not |
| UeMetrics.HoldsScaled | src/osmo_gsm_tester/obj/ms_srs.py:549-551 | dividing both sides by 1e6 for the Mbit/s display keeps every printed relation |
| UeMetrics.IsRateMetricExact | src/osmo_gsm_tester/obj/ms_srs.py:518-519 | the intended fold test holds exactly when `brate` occurs in the metric name |
| UeMetrics.FoldTestMisfires | src/osmo_gsm_tester/obj/ms_srs.py:519 | the test as written folds `dl_snr`, which is no rate, and does not fold `brate`, which is one |
| UeMetrics.VerifyOutcomes | src/osmo_gsm_tester/obj/ms_srs.py:497-558 | unknown operations and criteria are rejected; otherwise the verdict passes exactly when the series and the reduction exist and the result meets the criterion |
| UeMetrics.ReportIsTrue | src/osmo_gsm_tester/obj/ms_srs.py:542-559 | every report states a true relation: the criterion's symbol on success, the opposite one on failure |
| UeMetrics.AsWrittenAgreesOnRateMetrics | src/osmo_gsm_tester/obj/ms_srs.py:519 | for `dl_brate`, `ul_brate` and every other name with `brate` after its first character, the as-written and the intended test give the same verdict |
| UeMetrics.SelectLoop | src/osmo_gsm_tester/obj/ms_srs.py:503-516 | the column-selection loop computes `SelectColumns` |
| UeMetrics.FoldLoop | src/osmo_gsm_tester/obj/ms_srs.py:519-525 | the carrier loop computes `FoldCarriers` |
| UeMetrics.Verify | src/osmo_gsm_tester/obj/ms_srs.py:497-561 | the method's verdict is `VerifySpec`, the as-written specification the lemmas above characterise |
| Tasks.ScriptPart | src/osmo_gsm_tester/obj/ms_srs.py:189 | the script is everything before the character in front of `args=`, or all but the last character when the marker opens the string |
| Tasks.ParseTask | src/osmo_gsm_tester/obj/ms_srs.py:175-197 | the argv is never empty and its first entry ends in the task name, which has no `/`; without `args=` the argv is the whole string; with it there are at least two entries and no argument holds a comma |
| Tasks.FindAppendedMarker | src/osmo_gsm_tester/obj/ms_srs.py:177 | in a script path followed by ` args=`, `find` returns the appended marker |
| Tasks.ParseTaskWithArgs | src/osmo_gsm_tester/obj/ms_srs.py:188-194 | a script path followed by ` args=` and comma-joined arguments parses back into that path, its base name and those arguments |
| Tasks.ParseTaskFound | src/osmo_gsm_tester/obj/ms_srs.py:188-194 | a task whose first marker is at i splits into the script part and the comma-separated arguments after i+5 |
| Tasks.ParseTaskPlain | src/osmo_gsm_tester/obj/ms_srs.py:181-185 | without `args=` the whole string is the script and the name is its last path component |
| Tasks.ParseTaskLeadingArgs | src/osmo_gsm_tester/obj/ms_srs.py:189 | a task that opens with `args=` loses its last character from the script path |
| Tasks.RunTask | src/osmo_gsm_tester/obj/ms_srs.py:198-206 | succeeds exactly when the script exits with 0, and then returns True; `return False` is unreachable |
| Tasks.RunTasks | src/osmo_gsm_tester/obj/ms_srs.py:209-218 | a missing list succeeds without running anything; otherwise the scripts run in order up to the first failure, the call succeeds exactly when all pass, and it never returns False; the srsENB `prerun_tasks` and `postrun_tasks` (enb_srs.py lines 210-231) are the same loop |
| EnbSrs.RfTypesOfEnb | src/osmo_gsm_tester/obj/enb_srs.py:48-49 | the eNB accepts every radio type the UE accepts, and `fapi` besides |
| EnbSrs.EnbB200Args | src/osmo_gsm_tester/obj/enb_srs.py:386-409 | the configured B200 arguments stay a prefix of the edited string |
| EnbSrs.EnbB200MatchesUeSiso | src/osmo_gsm_tester/obj/enb_srs.py:386-401 | for transmission modes 1 and 2 the eNB edits the arguments exactly as a single-port UE does: separator, master clock for 75 PRB, 512-byte frames below 25 PRB, 1024-byte frames at 25 PRB, nothing else |
| EnbSrs.EnbB200Mimo | src/osmo_gsm_tester/obj/enb_srs.py:402-407 | from transmission mode 3 on the string ends in the 64-frame setting, followed by `,otw_format=sc12` exactly above 50 PRB |
| EnbSrs.RemotePrefix | src/osmo_gsm_tester/obj/enb_srs.py:318-323 | the prefix is the default `/osmo-gsm-tester-srsenb` or the configured `remote_dir`, and a non-empty `remote_dir` always replaces the default |
| EnbSrs.RemoteUnderPrefix | src/osmo_gsm_tester/obj/enb_srs.py:326-338 | the remote install tree and run directory lie under the prefix, and all ten artifacts lie in the run directory named after the eNB |
| EnbSrs.SettingsStepwise | src/osmo_gsm_tester/obj/enb_srs.py:364-374 | the option-by-option normalisation equals one overlay in which each option is read from the namespace as it was before normalising |
| EnbSrs.SettingsValuesFlags | src/osmo_gsm_tester/obj/enb_srs.py:364-374 | `enable_pcap`, `enable_tracing`, `enable_ul_qam64` and `enable_dl_awgn` hold the booleans read, and `rf_dev_sync` is present |
| EnbSrs.PathsKeep | src/osmo_gsm_tester/obj/enb_srs.py:350-358 | writing the file names leaves every other key alone |
| EnbSrs.SettingsKeep | src/osmo_gsm_tester/obj/enb_srs.py:364-374 | normalising the options leaves every other key alone |
| EnbSrs.ReadFromBase | src/osmo_gsm_tester/obj/enb_srs.py:340-378 | the options and the additional arguments `configure` reads are the ones the eNodeB base class configured |
| EnbSrs.EnbValuesPaths | src/osmo_gsm_tester/obj/enb_srs.py:342-358 | all eight file names in the `enb` namespace are the chosen paths, the remote ones exactly when the eNB is remote |
| EnbSrs.EnbValuesFlags | src/osmo_gsm_tester/obj/enb_srs.py:361-374 | the options written into the namespace are the ones the object keeps |
| EnbSrs.EnbValuesRf | src/osmo_gsm_tester/obj/enb_srs.py:380-413 | ZMQ gets the base class's string, UHD with `b200` the B200 edit, FAPI the empty string; otherwise `rf_dev_args` stays as configured |
| EnbSrs.EnbValuesKeep | src/osmo_gsm_tester/obj/enb_srs.py:360-413 | apart from the options and `rf_dev_args` the namespace keeps what the file-name overlay left |
| EnbSrs.EnbValuesFromBase | src/osmo_gsm_tester/obj/enb_srs.py:340-413 | every key `configure` does not set keeps the value the base class gave it |
| EnbSrs.LaunchOf | src/osmo_gsm_tester/obj/enb_srs.py:256-288 | a remote start with the malloc interceptor but no interceptor library raises; otherwise the argv is the binary, the configuration file (remote exactly for a remote eNB), the additional arguments and, for a remote interceptor run, the ` 2> <interceptor log>` redirection; `LD_PRELOAD` is set exactly for that run |
| EnbSrs.EnbCounter | src/osmo_gsm_tester/obj/enb_srs.py:439-442 | only `prach_received` is known, counted by the `RACH:` marker; other names raise |
| EnbSrs.CellAt | src/osmo_gsm_tester/obj/enb_srs.py:448-451 | a missing list and a cell beyond the list raise; a negative cell counts from the end as Python does |
| EnbSrs.RfemuFor | src/osmo_gsm_tester/obj/enb_srs.py:447-460 | succeeds exactly when the cell, its `dl_rfemu` section and its `type` exist, plus a `cell_id` for the types that talk back; those types get the cell id and the link to the eNB, others the section unchanged |
| EnbSrs.RateTable | src/osmo_gsm_tester/obj/enb_srs.py:464-492 | every table covers the same six PRB counts |
| EnbSrs.UeMaxRate | src/osmo_gsm_tester/obj/enb_srs.py:462-516 | raises exactly without a UE or for an untabulated PRB count |
| EnbSrs.UeMaxRateCarriers | src/osmo_gsm_tester/obj/enb_srs.py:508-514 | the rate scales with the carrier count, and the uplink of four 100 PRB carriers is reduced to 70% |
| EnbSrs.UeMaxRateMimo | src/osmo_gsm_tester/obj/enb_srs.py:499-502 | from transmission mode 3 on the downlink rate is twice that of mode 2; the uplink rate does not depend on the mode |
| EnbSrs.UeMaxRateFeatures | src/osmo_gsm_tester/obj/enb_srs.py:464-492 | declaring `dl_qam256` and `ul_qam64` never lowers the expected rate |
| EnbSrs.SrsEnb.Create | src/osmo_gsm_tester/obj/enb_srs.py:66-104 | the object exists exactly for `zmq`, `uhd`, `soapy`, `bladerf` and `fapi`; it starts without a process, a UE or the metrics file |
| EnbSrs.SrsEnb.BuildRfDevArgs | src/osmo_gsm_tester/obj/enb_srs.py:380-413 | the step-by-step `rf_dev_args` edits yield `EnbRfArgs` |
| EnbSrs.SrsEnb.NormaliseSettings | src/osmo_gsm_tester/obj/enb_srs.py:364-374 | the normalised namespace and the options read on the way |
| EnbSrs.SrsEnb.ComposeValues | src/osmo_gsm_tester/obj/enb_srs.py:340-413 | the rendered namespace, the kept options and the split additional arguments are the ones the specification functions give |
| EnbSrs.SrsEnb.Configure | src/osmo_gsm_tester/obj/enb_srs.py:298-429 | fails without `lib/` or the binary; otherwise fixes the local files, sets the remote layout under the configured prefix exactly for a remote eNB, renders `EnbValues`, keeps the options and cell list, and for a remote eNB stages the install tree and the four configuration files in order, failing at the first failed step |
| EnbSrs.SrsEnb.Record | src/osmo_gsm_tester/obj/enb_srs.py:305-378 | stores the paths and settings `configure` computed and nothing else |
| EnbSrs.SrsEnb.ScpBackMetrics | src/osmo_gsm_tester/obj/enb_srs.py:153-174 | at most once, with the same semantics as the UE's: the flag is set unless a remote copy fails and the caller asked to raise |
| EnbSrs.SrsEnb.Cleanup | src/osmo_gsm_tester/obj/enb_srs.py:106-151 | nothing without a process or for a local eNB; a failing post-run script raises before any pull; otherwise the metrics pull (unless already copied), the log pull, both pcap pulls with pcap on, the tracing pull with tracing on and the interceptor pull with the interceptor on, each failure swallowed |
| EnbSrs.SrsEnb.Start | src/osmo_gsm_tester/obj/enb_srs.py:233-250 | passes exactly when the install has `lib/` and the binary, a remote eNB's seven staging steps all succeed, every pre-run script passes and the launch plan exists; then the process and environment are the launch plan's, and a failure leaves the process as it was |
| EnbSrs.SrsEnb.PrerunAndLaunch | src/osmo_gsm_tester/obj/enb_srs.py:239-246 | a failing pre-run script aborts the start before the main process is launched |
| EnbSrs.SrsEnb.LaunchProcess | src/osmo_gsm_tester/obj/enb_srs.py:256-288 | the process and environment are `LaunchOf`'s; a missing interceptor library raises without launching |
| EnbSrs.SrsEnb.UeAdd | src/osmo_gsm_tester/obj/enb_srs.py:431-434 | a second UE raises and the first stays; the first UE is recorded |
| MsAmarisoft.RfTypesOfAmarisoft | src/osmo_gsm_tester/obj/ms_amarisoft.py:48-49 | only `uhd` and `zmq` are valid, a subset of what srsUE and srsENB accept; `soapy` is valid for srsUE and not here |
| MsAmarisoft.SymbolSize | src/osmo_gsm_tester/obj/ms_amarisoft.py:52-63 | defined exactly up to 110 PRB, raising above; always one of 128, 256, 768, 1024, 1536 |
| MsAmarisoft.SymbolSizeMonotone | src/osmo_gsm_tester/obj/ms_amarisoft.py:52-63 | a wider cell never gets a smaller symbol size |
| MsAmarisoft.SymbolSizeCoversPrbs | src/osmo_gsm_tester/obj/ms_amarisoft.py:52-63 | the symbol size is at least the 12 subcarriers per PRB of every valid cell |
| MsAmarisoft.SymbolSizeVersusSrsUe | src/osmo_gsm_tester/obj/ms_amarisoft.py:52-63 | agrees with the srsUE table at 6, 50, 75 and 100 PRB; gives 256 and 768 at 15 and 25 PRB where srsUE gives 1536 |
| MsAmarisoft.BaseSrate | src/osmo_gsm_tester/obj/ms_amarisoft.py:65-66 | defined exactly where the symbol size is |
| MsAmarisoft.Bandwidth | src/osmo_gsm_tester/obj/ms_amarisoft.py:68-81 | defined exactly up to 110 PRB, between 1.4 and 20 MHz |
| MsAmarisoft.BandwidthMonotone | src/osmo_gsm_tester/obj/ms_amarisoft.py:68-81 | a wider cell never gets a narrower channel |
| MsAmarisoft.BandwidthOfStandardCells | src/osmo_gsm_tester/obj/ms_amarisoft.py:68-81 | 15, 25, 50, 75, 100 PRB give PRB/5 MHz; 6 PRB gives 1.4 MHz |
| MsAmarisoft.SampleRateCoversBandwidth | src/osmo_gsm_tester/obj/ms_amarisoft.py:65-81 | the base sample rate of every valid cell is at least its channel bandwidth |
| MsAmarisoft.ZmqFreqSuffix | src/osmo_gsm_tester/obj/ms_amarisoft.py:284-290 | empty exactly when the eNB has neither one nor two ports |
| MsAmarisoft.ZmqFreqMatchesSrsUe | src/osmo_gsm_tester/obj/ms_amarisoft.py:284-290 | for one and two ports the frequency text is the single-carrier srsUE one |
| MsAmarisoft.MimoFreqArgs | src/osmo_gsm_tester/obj/ms_amarisoft.py:290 | the two-port text is channel 0 and 1 receive frequencies, then the transmit ones |
| MsAmarisoft.ZmqRfDevArgs | src/osmo_gsm_tester/obj/ms_amarisoft.py:280-292 | defined exactly up to 110 PRB; starts with the eNB's arguments for this UE and ends with `,id=ue,base_srate=` and the base sample rate |
| MsAmarisoft.ZmqSameAsSrsUe | src/osmo_gsm_tester/obj/ms_amarisoft.py:280-292 | for one or two ports and cells both tables size alike, the same arguments as a single-carrier srsUE |
| MsAmarisoft.B200Args | src/osmo_gsm_tester/obj/ms_amarisoft.py:304-316 | the result extends the configured arguments |
| MsAmarisoft.NoWireFormatBelow75 | src/osmo_gsm_tester/obj/ms_amarisoft.py:315-316 | below 75 PRB the arguments never end in the 12-bit wire format |
| MsAmarisoft.B200WireFormat | src/osmo_gsm_tester/obj/ms_amarisoft.py:307-316 | the arguments end in `,otw_format=sc12` exactly for cells of 75 PRB and more |
| MsAmarisoft.B200AsEnbAbove75 | src/osmo_gsm_tester/obj/ms_amarisoft.py:304-316 | above 75 PRB the UE edits a B200 argument string as the MIMO eNB does |
| MsAmarisoft.B200UnlikeEnbBelow75 | src/osmo_gsm_tester/obj/ms_amarisoft.py:311-316 | between 51 and 74 PRB the MIMO eNB adds the wire format and the UE does not |
| MsAmarisoft.RemotePaths | src/osmo_gsm_tester/obj/ms_amarisoft.py:251-260 | the remote log and ifup script lie under `/osmo-gsm-tester-amarisoftue/lteue/` with the local names; the remote install directory keeps the local basename |
| MsAmarisoft.AmValuesOk | src/osmo_gsm_tester/obj/ms_amarisoft.py:262-327 | a successful configuration is the base namespace overlaid with the radio patch, with `trx` copied from it |
| MsAmarisoft.RadioPatchKeys | src/osmo_gsm_tester/obj/ms_amarisoft.py:279-318 | the radio edits touch only `sample_rate`, `rf_dev_args` and `bandwidth` |
| MsAmarisoft.BasePaths | src/osmo_gsm_tester/obj/ms_amarisoft.py:271-274 | the log and ifup file names the wrapper sets are in the base namespace |
| MsAmarisoft.PathPatchNames | src/osmo_gsm_tester/obj/ms_amarisoft.py:273-274 | the path overlay sets `log_filename` and `ifup_filename` to the chosen files |
| MsAmarisoft.BaseIdentity | src/osmo_gsm_tester/obj/ms_amarisoft.py:267-277 | the base namespace holds the converted band flag and the eNB's port count as `num_antennas` |
| MsAmarisoft.BaseKeep | src/osmo_gsm_tester/obj/ms_amarisoft.py:262-277 | every other key of the base namespace is the merged configuration's |
| MsAmarisoft.TrxOfCopies | src/osmo_gsm_tester/obj/ms_amarisoft.py:322-327 | `trx` holds exactly the five driver settings, each as the `ue` namespace has it |
| MsAmarisoft.TrxMirrorsUe | src/osmo_gsm_tester/obj/ms_amarisoft.py:320-327 | after all edits, `trx` repeats exactly the five driver settings of the finished `ue` namespace |
| MsAmarisoft.AmValuesFails | src/osmo_gsm_tester/obj/ms_amarisoft.py:280-299 | configuration fails exactly for a ZMQ or UHD UE on a cell wider than 110 PRB |
| MsAmarisoft.AmValuesPaths | src/osmo_gsm_tester/obj/ms_amarisoft.py:267-277 | log and ifup paths are the remote ones exactly for a remote UE; antenna count and band flag are the wrapper's |
| MsAmarisoft.RadioZmq | src/osmo_gsm_tester/obj/ms_amarisoft.py:280-294 | for ZMQ, `rf_dev_args` is the ZMQ argument string and `sample_rate` the base sample rate in MHz |
| MsAmarisoft.RadioUhd | src/osmo_gsm_tester/obj/ms_amarisoft.py:296-318 | for UHD, `bandwidth` is set; `rf_dev_args` is edited exactly when the configured one mentions `b200` |
| MsAmarisoft.AmValuesRadio | src/osmo_gsm_tester/obj/ms_amarisoft.py:279-327 | the finished namespaces carry the radio keys of the configured front end, and `trx` repeats the final device arguments |
| MsAmarisoft.AmValuesKeep | src/osmo_gsm_tester/obj/ms_amarisoft.py:262-318 | every key the wrapper does not set keeps the merged configuration's value |
| MsAmarisoft.IfupLineRegisters | src/osmo_gsm_tester/obj/ms_amarisoft.py:340-343 | the ifup script's `<ue id>: netns amarisoftue1 configured` line registers the UE wherever it appears |
| MsAmarisoft.RegisteredStays | src/osmo_gsm_tester/obj/ms_amarisoft.py:340-343 | a registered UE stays registered as output grows |
| MsAmarisoft.SilentNotRegistered | src/osmo_gsm_tester/obj/ms_amarisoft.py:340-343 | a UE with no output is not registered |
| MsAmarisoft.AmarisoftUe.Create | src/osmo_gsm_tester/obj/ms_amarisoft.py:92-112 | the object exists exactly for `rf_dev_type` `uhd` or `zmq`, fresh, with no prefix and no process |
| MsAmarisoft.AmarisoftUe.BinPrefix | src/osmo_gsm_tester/obj/ms_amarisoft.py:117-122 | the first call caches the environment's path or else the trial's install; later calls return the cached one; nothing else changes |
| MsAmarisoft.AmarisoftUe.Configure | src/osmo_gsm_tester/obj/ms_amarisoft.py:224-338 | a missing binary raises before anything else; otherwise the local files, the remote layout for a remote UE, the rendered namespaces are `AmValues`, and a remote UE stages six operations, passing exactly when all do |
| MsAmarisoft.AmarisoftUe.ComposeValues | src/osmo_gsm_tester/obj/ms_amarisoft.py:262-327 | the step-by-step overlays produce `AmValues` |
| MsAmarisoft.AmarisoftUe.RadioEdits | src/osmo_gsm_tester/obj/ms_amarisoft.py:279-318 | the ZMQ and UHD branches produce `RadioPatch` |
| MsAmarisoft.AmarisoftUe.Cleanup | src/osmo_gsm_tester/obj/ms_amarisoft.py:124-133 | nothing without a process or for a local UE; otherwise exactly the log pull |
| MsAmarisoft.AmarisoftUe.Connect | src/osmo_gsm_tester/obj/ms_amarisoft.py:163-175 | passes exactly when the binary exists, the `ue` and `trx` namespaces build, a remote UE's six staging steps succeed and the four preparation steps succeed; then `lteue` runs with its configuration file, and a failure leaves the process as it was |
| MsAmarisoft.AmarisoftUe.StartProcess | src/osmo_gsm_tester/obj/ms_amarisoft.py:177-215 | launches exactly when the RPATH and capability steps all pass, with `lteue` and the configuration file; a failure leaves the process |
| QcDiag.RrcLine | src/osmo_gsm_tester/obj/qc_diag.py:62-69 | the reported line, if any, carries a state change and lies at or before the last pull line |
| QcDiag.RrcLineMeaning | src/osmo_gsm_tester/obj/qc_diag.py:65-73 | the reported line is the last state-change line up to the last pull line; there is none exactly when no such line precedes or shares the pull line |
| QcDiag.NoRrcLine | src/osmo_gsm_tester/obj/qc_diag.py:65-73 | without a state-change line up to the last pull line nothing is reported |
| QcDiag.RrcLineIs | src/osmo_gsm_tester/obj/qc_diag.py:65-72 | a state-change line with none after it up to the last pull line is the one reported |
| QcDiag.RrcStateOfLines | src/osmo_gsm_tester/obj/qc_diag.py:65-73 | the reverse scan with its `is_full_block` flag reports `RrcStateAsWritten` |
| QcDiag.RrcStateOf | src/osmo_gsm_tester/obj/qc_diag.py:61-73 | the state of the parser's output split into lines is `RrcStateAsWritten` |
| QcDiag.RrcStateIntended | src/osmo_gsm_tester/obj/qc_diag.py:70-71 | the reported state holds no quote |
| QcDiag.NoQuoteLeft | src/osmo_gsm_tester/obj/qc_diag.py:71 | removing every quote leaves none |
| QcDiag.IntendedAgreesWithoutQuotes | src/osmo_gsm_tester/obj/qc_diag.py:70-72 | when the reported token has no quotes, the as-written and intended states agree |
| QcDiag.QuotedLineState | src/osmo_gsm_tester/obj/qc_diag.py:70 | the last token of `LTE_RRC_STATE_CHANGE rrc_state='CONNECTED'` without `rrc_state=` is `'CONNECTED'` |
| QcDiag.PullLineHasNoState | src/osmo_gsm_tester/obj/qc_diag.py:67-69 | the pull line is not itself a state-change line |
| QcDiag.QuotesKept | src/osmo_gsm_tester/obj/qc_diag.py:70-72 | a quoted `CONNECTED` state followed by a pull line is reported with its quotes, where `CONNECTED` was meant |
| QcDiag.PagingCountOfLines | src/osmo_gsm_tester/obj/qc_diag.py:75-77 | the counter equals the number of lines exactly equal to `Paging received` |
| QcDiag.FinishedParsingMeaning | src/osmo_gsm_tester/obj/qc_diag.py:254-258 | parsing has finished exactly when the pull line occurs twice without overlap |
| QcDiag.ParserArgv | src/osmo_gsm_tester/obj/qc_diag.py:176-211 | refused exactly for a UE on the master with a remote parser; otherwise six entries headed by the parser script |
| QcDiag.ParserArgvTable | src/osmo_gsm_tester/obj/qc_diag.py:179-211 | on a shared host the serial and `0`/`0` address, otherwise `0` and the UE's SSH address and port; the parser's local directories exactly when it runs on the master |
| QcDiag.ClearCommands | src/osmo_gsm_tester/obj/qc_diag.py:120-148 | a chown to the invoking or SSH user (on the master only if the directory exists), then `rm -r`, each on the diag log directory |
| QcDiag.RunCommands | src/osmo_gsm_tester/obj/qc_diag.py:133-148 | runs the commands in order up to the first non-zero exit; passes exactly when all exit 0 |
| QcDiag.ScatParser.Configure | src/osmo_gsm_tester/obj/qc_diag.py:166-174 | records the UE's node and the pcap flag, the local pcap path, and the remote paths only for a remote parser |
| QcDiag.ScatParser.Start | src/osmo_gsm_tester/obj/qc_diag.py:176-224 | launches exactly when the argument table accepts the placement and, for a remote parser, every clear command passes; the argument vector is the table's, or the blank one |
| QcDiag.ScatParser.FillArgv | src/osmo_gsm_tester/obj/qc_diag.py:178-211 | the index-by-index filling gives `ParserArgv` |
| QcDiag.ScatParser.WritePcap | src/osmo_gsm_tester/obj/qc_diag.py:229-252 | a running parser is stopped; success means the clear commands passed and the writer pulled twice; the writer becomes the parser with `restart` and is stopped otherwise |
| QcDiag.ScatParser.Cleanup | src/osmo_gsm_tester/obj/qc_diag.py:272-276 | nothing without pcap; otherwise the pcap is written without restart and, for a remote parser after success, copied back |
| QcDiag.QcDiagUe.Start | src/osmo_gsm_tester/obj/qc_diag.py:85-93 | launches the diag monitor, configures the parser with this UE's node and flag and starts it, passing exactly as the parser's start does; on success the parser runs as `scat_parser_<addr>` with the table's argument vector for this UE, and on failure its process is unchanged |
| QcDiag.QcDiagUe.GetRrcState | src/osmo_gsm_tester/obj/qc_diag.py:61-73 | raises without a parser process; otherwise the state of its output |
| QcDiag.QcDiagUe.PagingCounter | src/osmo_gsm_tester/obj/qc_diag.py:75-77 | defined exactly when the parser process exists |
| EpcSrs.NewSubscriber | src/osmo_gsm_tester/obj/epc_srs.py:184-202 | rejected exactly when a non-`none` algorithm has no KI or `milenage` has no OPC; the row carries the id, IMSI, MSISDN (given or the modem's), KI and APN address and never the name `milenage` |
| EpcSrs.NewSubscriberAuth | src/osmo_gsm_tester/obj/epc_srs.py:188-200 | `milenage` is stored as `mil` with a non-empty OPC, other algorithms as requested; an algorithm other than `none` implies a KI; a missing OPC is stored empty |
| EpcSrs.WithQci | src/osmo_gsm_tester/obj/epc_srs.py:160-163 | every row gets the configured `qci`, the list keeps its length |
| EpcSrs.WithQciKeeps | src/osmo_gsm_tester/obj/epc_srs.py:162-163 | all other fields of every row stay, ids stay list indices, and setting the same `qci` again changes nothing |
| EpcSrs.SetQci | src/osmo_gsm_tester/obj/epc_srs.py:162-163 | the index-by-index loop gives `WithQci` |
| EpcSrs.RemotePaths | src/osmo_gsm_tester/obj/epc_srs.py:135-144 | the remote database, log and pcap lie under `/osmo-gsm-tester-srsepc/srsepc/` with the local names; the remote install keeps its basename |
| EpcSrs.PathPatchNames | src/osmo_gsm_tester/obj/epc_srs.py:148-153 | the path overlay sets exactly the database, log and pcap names to the chosen files |
| EpcSrs.EpcValuesPaths | src/osmo_gsm_tester/obj/epc_srs.py:146-157 | the three paths are the remote ones exactly for a remote EPC, `enable_pcap` becomes a boolean, every other key is the base class's |
| EpcSrs.EnbIsConnected | src/osmo_gsm_tester/obj/epc_srs.py:208-214 | the line scan returns true exactly when some line starts with `S1 Setup Request` and ends with `eNB id: ` and the id in lower-case hexadecimal |
| EpcSrs.ConnectedOccurs | src/osmo_gsm_tester/obj/epc_srs.py:208-214 | a connected eNodeB's marker and id both occur in the output |
| EpcSrs.SingleLine | src/osmo_gsm_tester/obj/epc_srs.py:210 | a non-empty text without line breaks is one line |
| EpcSrs.SampleLineConnects | src/osmo_gsm_tester/obj/epc_srs.py:209 | the sample line `S1 Setup Request - eNB Name: <name>, eNB id: <hex>` marks exactly that eNodeB connected |
| EpcSrs.SrsEpc.SubscriberAdd | src/osmo_gsm_tester/obj/epc_srs.py:184-206 | appends exactly one validated row whose id is the previous length and returns it; a rejected modem leaves the list |
| EpcSrs.SrsEpc.Configure | src/osmo_gsm_tester/obj/epc_srs.py:123-182 | a missing `lib/` or binary raises with nothing changed; otherwise the files and remote layout, the `epc` namespace, the pcap flag, a missing `qci` failing, every subscriber's `qci` set, and for a remote EPC the five staging steps passing exactly when all do |
| EpcSrs.SrsEpc.ComposeValues | src/osmo_gsm_tester/obj/epc_srs.py:148-157 | the overlays give `EpcValues`, with `enable_pcap` a boolean |
| EpcSrs.SrsEpc.StartProcess | src/osmo_gsm_tester/obj/epc_srs.py:87-121 | launches exactly when the RPATH and capability steps pass, with the binary and configuration file; a failure leaves the process |
| EpcSrs.SrsEpc.Begin | src/osmo_gsm_tester/obj/epc_srs.py:78-85 | passes exactly when the install has `lib/` and the binary, `qci` is set, a remote EPC's five staging steps succeed and both preparation steps succeed; then every subscriber has the QCI and srsEPC runs in the new run directory, and a failure leaves the process |
| EpcSrs.SrsEpc.EnbIsConnectedNow | src/osmo_gsm_tester/obj/epc_srs.py:208-214 | raises without a process; otherwise `EnbConnected` of its output |
| EpcSrs.SrsEpc.Cleanup | src/osmo_gsm_tester/obj/epc_srs.py:62-76 | nothing without a process or on the master; otherwise the log pull and, with pcap, the pcap pull, both always attempted |
| SrsEpc.RlcDrbMode2Qci | src/osmo_gsm_tester/srs_epc.py:25-30 | `UM` in any letter case gives 7, `AM` gives 9, and exactly every other mode raises |
| SrsEpc.RlcDrbModeCase | src/osmo_gsm_tester/srs_epc.py:25-30 | lower- and mixed-case `um`/`am` map like the upper-case ones; `tm` raises |
| SrsEpc.QciOf | src/osmo_gsm_tester/srs_epc.py:169-172 | a QCI exists only for a string mode, and is that mode's |
| SrsEpc.SetQciFromMode | src/osmo_gsm_tester/srs_epc.py:169-172 | fails exactly for a non-empty list with a bad mode; otherwise every row gets the mode's QCI, and an empty list stays empty whatever the mode |
| SrsEpc.NewSubscriber | src/osmo_gsm_tester/srs_epc.py:186-198 | rejected exactly when a non-`none` algorithm has no KI; the row carries the id, MSISDN, IMSI, the algorithm as requested, the KI and no OPC |
| SrsEpc.MilenageDiffers | src/osmo_gsm_tester/srs_epc.py:191-198 | with a KI, `milenage` is accepted here without an OPC and stored as `milenage`, where the newer wrapper stores `mil` |
| SrsEpc.StartArgv | src/osmo_gsm_tester/srs_epc.py:116-120 | six entries: the binary, the configuration, then the database, log, `--pcap.enable=true` and pcap options naming the given files |
| SrsEpc.ArgvUnder | src/osmo_gsm_tester/srs_epc.py:116-120 | when the binary and every file lie under a directory, so does every path on the command line |
| SrsEpc.FilesUnder | src/osmo_gsm_tester/srs_epc.py:158-161 | the run directory's four files are under it |
| SrsEpc.RemoteArgvIsRemote | src/osmo_gsm_tester/srs_epc.py:93-120 | every path on a remote start's command line is under `/osmo-gsm-tester-srsepc/` |
| SrsEpc.LocalArgvIsLocal | src/osmo_gsm_tester/srs_epc.py:147-151 | on the master every file option names a file of the run directory |
| SrsEpc.ConnectedStays | src/osmo_gsm_tester/srs_epc.py:204-206 | a connected eNodeB stays connected as output grows |
| SrsEpc.EpcValues | src/osmo_gsm_tester/srs_epc.py:164-166 | `run_addr` is the EPC's address; every other key is the suite's `epc` value where given and the default otherwise |
| SrsEpc.SrsEpc.SubscriberAdd | src/osmo_gsm_tester/srs_epc.py:186-202 | the MSISDN is the given one or the pool's and is handed to the modem; exactly one validated row is appended with the previous length as id; a refused modem leaves the list |
| SrsEpc.SrsEpc.Configure | src/osmo_gsm_tester/srs_epc.py:157-173 | fails exactly for a missing `rlc_drb_mode` or a bad one with subscribers present, leaving the list; otherwise the list keeps its length and every row gets the mode's QCI |
| SrsEpc.SrsEpc.StartRemotely | src/osmo_gsm_tester/srs_epc.py:84-125 | a missing `lib/` or binary raises with nothing launched; otherwise the remote layout is fixed and the launch with the remote command line happens exactly when all seven staging and preparation steps pass |
| SrsEpc.SrsEpc.StartLocallyAsWritten | src/osmo_gsm_tester/srs_epc.py:127-130 | always raises: the binary name is looked up as an undefined module-level name |
| SrsEpc.SrsEpc.StartLocally | src/osmo_gsm_tester/srs_epc.py:127-155 | launches exactly with binary, `lib/` and both preparation steps, under `name()` with the run directory's command line; a failure leaves the process |
| SrsEpc.SrsEpc.Begin | src/osmo_gsm_tester/srs_epc.py:75-82 | passes exactly when `rlc_drb_mode` is set (and maps to a QCI if there are subscribers), the install has `lib/` and the binary, and on the master both local steps or remotely all seven remote steps succeed; then every subscriber has its QCI and srsEPC runs with the local command line under `name()` or the remote one; a failure leaves the process |
| SrsEpc.SrsEpc.EnbIsConnected | src/osmo_gsm_tester/srs_epc.py:204-206 | raises without a process; otherwise true exactly when the output contains `S1 Setup Request - eNB Id` |
| SrsEpc.SrsEpc.Cleanup | src/osmo_gsm_tester/srs_epc.py:60-73 | nothing without a process or on the master; otherwise the log pull and the pcap pull, both always attempted |
| Base.Overlay | src/osmo_gsm_tester/obj/ms_srs.py:308-322 | a flat overlay: the keys of both, each patched key taking the patch's value and every other the base's |
| Base.FirstFailure | src/osmo_gsm_tester/obj/ms_srs.py:403-407 | every step before the result succeeds and the step at the result, if any, fails |
| Base.Attempted | src/osmo_gsm_tester/obj/ms_srs.py:403-407 | the steps up to and including the first failure, as a prefix of all steps |
| Base.RunRemoteOps | src/osmo_gsm_tester/obj/ms_srs.py:403-407 | runs steps in order, stopping at the first failure; passes exactly when none fails |
| Base.AllSucceed | src/osmo_gsm_tester/obj/ms_srs.py:403-407 | no first failure exactly when every step succeeds |
| Base.Pull | src/osmo_gsm_tester/obj/ms_srs.py:127-137 | a copy-back fails exactly when it is re-raised and the copy fails |
| Base.PyInt | src/osmo_gsm_tester/obj/ms_srs.py:328-329 | Python's `int()`: integers unchanged, a string converts exactly when it is a signed decimal literal and then to its value, reals truncate toward zero, `None` and lists raise |
| Base.PyIntReadsBack | src/osmo_gsm_tester/obj/ms_srs.py:328-329 | a count given as a number or as its decimal text converts to that number |
| Text.RFind | src/osmo_gsm_tester/obj/ms_srs.py:411-412 | -1 exactly when the text does not occur; otherwise the last occurrence |
| Text.JoinSplit | src/osmo_gsm_tester/obj/ms_srs.py:194 | splitting on a character and joining again gives the text back |
| Text.SplitJoin | src/osmo_gsm_tester/obj/ms_srs.py:504 | joining pieces free of the separator and splitting again gives the pieces back |
| Text.SplitLines | src/osmo_gsm_tester/obj/ms_srs.py:423 | no lines exactly for empty text, and no line holds a line break |
| Text.SplitLinesOccur | src/osmo_gsm_tester/obj/ms_srs.py:423 | every line of the split occurs in the text |
| Text.CountOf | src/osmo_gsm_tester/obj/qc_diag.py:258 | zero exactly when the text does not occur |
| Text.CountAtLeastTwo | src/osmo_gsm_tester/obj/qc_diag.py:258 | a count of two or more exactly when two non-overlapping occurrences exist |
| Text.RemoveAll | src/osmo_gsm_tester/obj/qc_diag.py:70 | never longer than the input, and the input itself when the pattern is absent |
| Text.Upper | src/osmo_gsm_tester/srs_epc.py:26-28 | same length, each ASCII letter upper-cased and every other character kept |
| Text.HexLower | src/osmo_gsm_tester/obj/epc_srs.py:212 | starts with `0x` and has at least one digit |
| Text.HexLowerValue | src/osmo_gsm_tester/obj/epc_srs.py:212 | after `0x` come lower-case hexadecimal digits that read back as the number |
| Text.Basename | src/osmo_gsm_tester/obj/ms_srs.py:182-183 | no `/` in the result, which ends the path; a path without `/` is its own base name |
| Text.Words | src/osmo_gsm_tester/obj/ms_srs.py:326 | the non-empty whitespace-free runs; none exactly for all-whitespace text |
| Text.LastField | src/osmo_gsm_tester/obj/qc_diag.py:70 | the last field holds no separator and ends the text |
| Text.NatToString | src/osmo_gsm_tester/obj/ms_srs.py:78 | a non-empty string of decimal digits |
| Text.NatToStringValue | src/osmo_gsm_tester/obj/ms_srs.py:78 | the digits read back as the number |
| Text.IntToStringValue | src/osmo_gsm_tester/obj/ms_srs.py:328 | Python's `int()` reads `str(n)` back as `n`, negative numbers included |
| Text.CountEq | src/osmo_gsm_tester/obj/qc_diag.py:77 | the number of list entries equal to the given line |

## Left out

- Process spawning, SSH and SCP, `patchelf`, `setcap`, network namespaces and the main-loop waits are not modelled as actions. Each remote or local step is an operation whose success the `ok` parameter decides. Each helper command's exit code comes from `exitOf`.
- `config.get_defaults`, the suite configuration lookups and `util.str2bool` are inputs. Defaults and suite sections are namespaces passed in, and the string-to-boolean conversion is the `toBool` parameter.
- `config.overlay` is modelled only as the flat, one-level patch the wrappers apply. Nested namespaces are not modelled, such as `hss.subscribers` (a field of `Rendered`) or the whole suite configuration overlaid in `srs_epc.py:165` (its `epc` section is an input).
- `template.render` and the file writes are left out. `configure` returns the namespaces that would be rendered instead.
- The text of the Amarisoft ifup script and its `chmod` are left out. Only the line it prints, which `is_registered` looks for, is modelled.
- Writing `t\n` to the process's stdin after the launch (the console trace switch) is left out for all three wrappers that do it: srsUE (`ms_srs.py:236`), srsENB (`enb_srs.py:250`) and the Amarisoft UE (`ms_amarisoft.py:175`). So are the `sleep_after_stop` calls in the srsUE and srsENB `cleanup` (`ms_srs.py:126`, `enb_srs.py:113`), `remember_to_stop`, and the debug and log output.
- Base.PyInt: Python's `int()` also accepts surrounding whitespace and `_` between digits in a string; the model refuses those. Bytes values and other bases do not occur in the configuration and are not modelled.
- The websocket `detach` of the Amarisoft UE is network I/O and is left out. Its source also refers to an attribute that is never set.
- The ZMQ port allocation in `AmarisoftUE.__init__` (`next_zmq_port_range`) comes from the resource pool and is left out.
- The `AMARISOFT_PATH_UE` environment lookup is the `envPath` parameter.
- The srsENB rfemu object construction is left out. `get_rfemu`'s checks on `cell_list` are modelled (`EnbSrs.RfemuFor`).
- `get_kpis`, `running`, `addr`, `netns`, `tun_addr`, `features` and the plain getters are left out. They only return fields or ask the process.
- `get_counter`'s count of console lines is done by the process object. It is the `countOf` parameter, and only the counter-name table is modelled.
- `QcDiag.__init__`'s remote host and `ms_android.AndroidUE` constants are not modelled. The Android remote directory and pcap file name are inputs to `ScatParser.Configure`.
- The dead check in `ScatParser.__init__` is not modelled. It compares the run node with `{}` by identity, so it never returns early.
- The 300-second timeout and 0.1-second step of `write_pcap`'s wait are not modelled. The output at the end of the wait is the `waited` parameter.
- The eNodeB base class's `configure`, its `num_prb`, `txmode`, `num_ports` and ZMQ argument builders are not part of this model. Their results are inputs.
- The EPC base class's `configure` in `obj/epc_srs.py` is not part of this model either; its `epc` namespace is an input.
- `next_msisdn`, `set_msisdn` and `OSMO_AUTH_ALGO_NONE` come from modules that are not shown. The pool's MSISDN is a parameter, the MSISDN handed to the modem is an out-parameter, and `none` is the no-authentication name.
- The numpy CSV loading of `srsUEMetrics.__init__` is left out. The metrics file is a table of named `real` columns.
- UeMetrics.Verify: numbers are exact reals, not IEEE doubles, and rounding to two decimals in the report text is not modelled. The report carries the values and the symbol.
- UeMetrics.NumCarriers: a largest carrier index below zero or not a whole number is reported as an error. The source would slice with a step of zero or below, which raises or walks backwards. The `cc` column is read as integers there.
- EnbSrs.UeMaxRate: the 0.85 and 0.7 factors are kept as exact real multipliers, not as floating-point products.
- `util.prepend_library_path(lib)` is modelled as the library directory alone: the srsENB `LD_LIBRARY_PATH` and the RPATH patched into the srsUE, Amarisoft UE and srsEPC binaries. The source puts it in front of the master's own `LD_LIBRARY_PATH`, which is process environment and not modelled.
- Text.Upper: upper-cases ASCII letters only; Python's `str.upper` also maps other letters (`ß` becomes `SS`, changing the length). It is only applied to the `rlc_drb_mode` setting, whose accepted values are ASCII.
- The srsENB options (`enable_pcap`, `enable_tracing`, `enable_malloc_interceptor`, ...) are one `options` field of `SrsEnb`, not one attribute each.

## Findings

| source | as written | input that shows it | evidently intended | confidence | as-written member | corrected member |
|---|---|---|---|---|---|---|
| src/osmo_gsm_tester/obj/ms_srs.py:519 | `if metric_str.find('brate'):` is true for every index except 0, including -1 for "absent" | metric `dl_snr` (no `brate`) is folded by carrier; metric `brate` (found at index 0) is not | fold the carriers of exactly the metrics whose name contains `brate`, as the comment above the line says | high; not executed | UeMetrics.FoldTestMisfires, UeMetrics.Verify | UeMetrics.IsRateMetricExact, UeMetrics.AsWrittenAgreesOnRateMetrics |
| src/osmo_gsm_tester/obj/qc_diag.py:71 | `rrc_state.replace('\'', '')` discards its result, so the quotes stay | output `LTE_RRC_STATE_CHANGE rrc_state='CONNECTED'` followed by `Pulling new .qmdl file...` reports `'CONNECTED'` | report the state without quotes, `CONNECTED` | high; not executed | QcDiag.QuotesKept, QcDiag.QcDiagUe.GetRrcState | QcDiag.RrcStateIntended, QcDiag.IntendedAgreesWithoutQuotes |
| src/osmo_gsm_tester/srs_epc.py:130 | `inst.child('bin', BINFILE)` names a module-level `BINFILE` that does not exist | any start on the master raises a `NameError` before patching or launching | use the class constant `srsEPC.BINFILE`, as `start_remotely` does | high; not executed | SrsEpc.SrsEpc.StartLocallyAsWritten | SrsEpc.SrsEpc.StartLocally, SrsEpc.LocalArgvIsLocal |

The class methods `UeMetrics.Verify` and `QcDiag.QcDiagUe.GetRrcState` follow the code as
written, since they model what the harness actually reports. `SrsEpc.SrsEpc.Begin` starts
on the master through the corrected `StartLocally`; with the code as written, no local start
could succeed.

/** The srsUE wrapper: radio parameters derived from the cell, artifact paths, the
    `rf_dev_args` strings, the at-most-once metrics retrieval and the console observers. */
module MsSrs {
  import opened Text
  import opened Base
  import opened Tasks
  import UeMetrics

  const RemoteDir := "/osmo-gsm-tester-srsue"
  const BinFile := "srsue"
  const CfgFile := "srsue.conf"
  const PcapFile := "srsue.pcap"
  const LogFile := "srsue.log"
  const MetricsFile := "srsue_metrics.csv"
  const NetNs := "srsue1"

  /** The radio front ends srsUE accepts. */
  predicate RfTypeValid(t: string) {
    t == "zmq" || t == "uhd" || t == "soapy" || t == "bladerf"
  }

  // ---------------------------------------------------------------------------------------
  // Radio parameters

  /** FFT symbol size for a cell bandwidth in PRBs, as srsUE's wrapper tabulates it: only 6,
      50 and 75 PRB get their own size, every other count gets the largest. */
  function SymbolSize(numPrb: int): (sz: nat)
    ensures sz in {128, 768, 1024, 1536}
  {
    if numPrb == 6 then 128
    else if numPrb == 50 then 768
    else if numPrb == 75 then 1024
    else 1536
  }

  /** Base sample rate: symbol size times the 15 kHz subcarrier spacing. */
  function BaseSrate(numPrb: int): nat {
    SymbolSize(numPrb) * 15 * 1000
  }

  /** The base sample rates are the LTE rates 1.92, 11.52, 15.36 and 23.04 MHz, the last one
      for every PRB count without its own entry (15, 25 and 100 among them). */
  lemma BaseSrateTable(numPrb: int)
    ensures numPrb == 6 ==> BaseSrate(numPrb) == 1920000
    ensures numPrb == 50 ==> BaseSrate(numPrb) == 11520000
    ensures numPrb == 75 ==> BaseSrate(numPrb) == 15360000
    ensures numPrb != 6 && numPrb != 50 && numPrb != 75 ==> BaseSrate(numPrb) == 23040000
    ensures BaseSrate(numPrb) % 15000 == 0 && BaseSrate(numPrb) / 15000 == SymbolSize(numPrb)
  {
  }

  // ---------------------------------------------------------------------------------------
  // ZMQ rf_dev_args

  const ZmqIdHead := ",id=ue,base_srate"
  const ZmqIdTag := ZmqIdHead + "="

  /** The UE receive (downlink) frequency of each carrier in MHz, in carrier order. */
  const CarrierRxMhz: seq<nat> := [2630, 2650, 2670, 2680]

  /** One receive and one transmit frequency in MHz per RF channel, channels grouped by
      carrier with one channel per antenna port. */
  datatype FreqPlan = FreqPlan(rx: seq<nat>, tx: seq<nat>)

  /** The frequency table of the ZMQ UE for a carrier count and the eNB's antenna ports;
      `None` where the source appends nothing. 4 carriers with MIMO raise, and so does any
      carrier count other than 1, 2 and 4 (that message is itself malformed, so Python raises
      a TypeError while formatting it). */
  function ZmqFreqPlan(numCarriers: int, ports: int, numNrCarriers: int): (r: Result<Option<FreqPlan>>)
    ensures r.Err? <==> (numCarriers != 1 && numCarriers != 2 && numCarriers != 4) || (numCarriers == 4 && ports == 2)
    ensures r.Ok? && r.value.None? <==>
      (numCarriers == 1 && !(ports == 1 && numNrCarriers == 0) && ports != 2) ||
      ((numCarriers == 2 || numCarriers == 4) && ports != 1 && ports != 2)
  {
    if numCarriers == 1 then
      if ports == 1 && numNrCarriers == 0 then Ok(Some(FreqPlan([2630], [2510])))
      else if ports == 2 then Ok(Some(FreqPlan([2630, 2630], [2510, 2510])))
      else Ok(None)
    else if numCarriers == 2 then
      if ports == 1 then Ok(Some(FreqPlan([2630, 2650], [2510, 2530])))
      else if ports == 2 then Ok(Some(FreqPlan([2630, 2630, 2650, 2650], [2510, 2510, 2530, 2530])))
      else Ok(None)
    else if numCarriers == 4 then
      if ports == 1 then Ok(Some(FreqPlan([2630, 2650, 2670, 2680], [2510, 2530, 2550, 2560])))
      else if ports == 2 then Err("4 carriers with MIMO isn't supported")
      else Ok(None)
    else Err("not all arguments converted during string formatting")
  }

  /** Every table has one channel per carrier and port; channel `k` belongs to carrier
      `k / ports`, receives on that carrier's downlink frequency and transmits 120 MHz below it
      (the band 7 duplex spacing). */
  lemma ZmqFreqPlanShape(numCarriers: int, ports: int, numNrCarriers: int)
    requires ZmqFreqPlan(numCarriers, ports, numNrCarriers).Ok?
    requires ZmqFreqPlan(numCarriers, ports, numNrCarriers).value.Some?
    ensures var p := ZmqFreqPlan(numCarriers, ports, numNrCarriers).value.value;
      (ports == 1 || ports == 2) && 1 <= numCarriers <= 4 &&
      |p.rx| == |p.tx| == numCarriers * ports &&
      forall k :: 0 <= k < |p.rx| ==> p.rx[k] == CarrierRxMhz[k / ports] && p.tx[k] + 120 == p.rx[k]
  {
    var p := ZmqFreqPlan(numCarriers, ports, numNrCarriers).value.value;
    forall k | 0 <= k < |p.rx|
      ensures p.rx[k] == CarrierRxMhz[k / ports] && p.tx[k] + 120 == p.rx[k]
    {
      if ports == 2 {
        assert k / 2 == if k < 2 then 0 else 1;
      }
    }
  }

  /** `,<name>0=<f0>e6,<name>1=<f1>e6,...` for the frequencies in MHz. */
  function FreqArgs(name: string, freqs: seq<nat>): string {
    if |freqs| == 0 then ""
    else
      var n := |freqs| - 1;
      FreqArgs(name, freqs[..n]) + "," + name + NatToString(n) + "=" + NatToString(freqs[n]) + "e6"
  }

  /** The frequency part of the ZMQ device arguments: the receive then the transmit
      frequencies of the table, nothing where the table is absent. */
  function ZmqFreqSuffix(numCarriers: int, ports: int, numNrCarriers: int): (r: Result<string>)
    ensures r.Err? <==> ZmqFreqPlan(numCarriers, ports, numNrCarriers).Err?
    ensures r.Ok? && ZmqFreqPlan(numCarriers, ports, numNrCarriers).value.None? ==> r.value == ""
  {
    match ZmqFreqPlan(numCarriers, ports, numNrCarriers)
    case Err(e) => Err(e)
    case Ok(None) => Ok("")
    case Ok(Some(p)) => Ok(FreqArgs("rx_freq", p.rx) + FreqArgs("tx_freq", p.tx))
  }

  lemma SisoDigits()
    ensures NatToString(0) == "0" && NatToString(2630) == "2630" && NatToString(2510) == "2510"
  {
    assert NatToString(2630) == "2630" by {
      assert NatToString(2) == "2";
      assert NatToString(26) == "26";
      assert NatToString(263) == "263";
    }
    assert NatToString(2510) == "2510" by {
      assert NatToString(2) == "2";
      assert NatToString(25) == "25";
      assert NatToString(251) == "251";
    }
  }

  /** One frequency renders as its channel 0 entry. */
  lemma FreqArgsSingle(name: string, f: nat)
    ensures FreqArgs(name, [f]) == "," + name + NatToString(0) + "=" + NatToString(f) + "e6"
  {
    assert [f][..0] == [];
  }

  lemma SisoFreqArgs()
    ensures FreqArgs("rx_freq", [2630]) == ",rx_freq0=2630e6"
    ensures FreqArgs("tx_freq", [2510]) == ",tx_freq0=2510e6"
  {
    SisoDigits();
    FreqArgsSingle("rx_freq", 2630);
    FreqArgsSingle("tx_freq", 2510);
  }

  /** The single-carrier SISO suffix is the one the source spells out. */
  lemma ZmqSisoSuffix()
    ensures ZmqFreqSuffix(1, 1, 0) == Ok(",rx_freq0=2630e6,tx_freq0=2510e6")
  {
    SisoFreqArgs();
    assert ZmqFreqPlan(1, 1, 0) == Ok(Some(FreqPlan([2630], [2510])));
    assert ",rx_freq0=2630e6" + ",tx_freq0=2510e6" == ",rx_freq0=2630e6,tx_freq0=2510e6";
  }

  /** The ZMQ `rf_dev_args` of the UE: the eNB's port arguments for this UE, the frequency
      part, then the device id and the base sample rate. */
  function ZmqRfDevArgs(enbArgs: string, numCarriers: int, ports: int, numNrCarriers: int, numPrb: int): (r: Result<string>)
    ensures r.Ok? <==> ZmqFreqSuffix(numCarriers, ports, numNrCarriers).Ok?
    ensures r.Ok? ==> StartsWith(r.value, enbArgs) && EndsWith(r.value, ZmqIdTag + NatToString(BaseSrate(numPrb)))
  {
    match ZmqFreqSuffix(numCarriers, ports, numNrCarriers)
    case Err(e) => Err(e)
    case Ok(freqs) =>
      var tail := ZmqIdTag + NatToString(BaseSrate(numPrb));
      ConcatAffixes(enbArgs + freqs, tail);
      ConcatAffixes(enbArgs, freqs);
      Ok(enbArgs + freqs + tail)
  }

  /** The sample rate handed to the ZMQ device is read back from the last `=` field. */
  lemma ZmqBaseSrateReadBack(enbArgs: string, numCarriers: int, ports: int, numNrCarriers: int, numPrb: int)
    requires ZmqRfDevArgs(enbArgs, numCarriers, ports, numNrCarriers, numPrb).Ok?
    ensures var f := LastField(ZmqRfDevArgs(enbArgs, numCarriers, ports, numNrCarriers, numPrb).value, '=');
      (forall k :: 0 <= k < |f| ==> IsDigit(f[k])) && DecimalValue(f) == BaseSrate(numPrb)
  {
    var lead := enbArgs + ZmqFreqSuffix(numCarriers, ports, numNrCarriers).value;
    var digits := NatToString(BaseSrate(numPrb));
    assert ZmqIdTag + digits == ZmqIdHead + ['='] + digits;
    RegroupAt(lead, ZmqIdHead, '=', digits);
    NumberAfterEquals(lead + ZmqIdHead, BaseSrate(numPrb));
    NatToStringValue(BaseSrate(numPrb));
  }

  // ---------------------------------------------------------------------------------------
  // UHD/B200 rf_dev_args

  /** `args += ',' if args != '' and not args.endswith(',') else ''`. */
  function WithSeparator(args: string): (r: string)
    ensures StartsWith(r, args) && |r| <= |args| + 1
    ensures r == "" <==> args == ""
    ensures r != "" ==> EndsWith(r, ",")
  {
    if args != "" && !EndsWith(args, ",") then
      assert (args + ",")[..|args|] == args;
      args + ","
    else
      assert args[..|args|] == args;
      args
  }

  /** Adding the separator twice adds it once. */
  lemma WithSeparatorIdempotent(args: string)
    ensures WithSeparator(WithSeparator(args)) == WithSeparator(args)
  {
  }

  const MasterClock := "master_clock_rate=15.36e6,"
  const Frames512 := "send_frame_size=512,recv_frame_size=512"
  const Frames1024 := "send_frame_size=1024,recv_frame_size=1024"
  const Frames64 := "num_recv_frames=64,num_send_frames=64"

  /** The frame settings srsUE uses on a B200: frame sizes by bandwidth for one antenna port,
      64 frames for MIMO (the over-the-wire format stays untouched for the UE). */
  function UeB200Frames(numPrb: int, ports: int): string {
    if ports == 1 then
      if numPrb < 25 then Frames512 else if numPrb == 25 then Frames1024 else ""
    else Frames64
  }

  /** The B200 `rf_dev_args` of the UE built from the configured arguments. */
  function UeB200Args(args: string, numPrb: int, ports: int): (r: string)
    ensures StartsWith(r, args)
  {
    var r := WithSeparator(args) + (if numPrb == 75 then MasterClock else "") + UeB200Frames(numPrb, ports);
    assert r[..|args|] == WithSeparator(args)[..|args|];
    r
  }

  /** A 75 PRB cell gets the 15.36 MHz master clock right after the user's arguments, and
      no other bandwidth gets a master clock setting of its own. */
  lemma UeB200ArgsClock(args: string, numPrb: int, ports: int)
    ensures numPrb == 75 ==> OccursAt(UeB200Args(args, numPrb, ports), MasterClock, |WithSeparator(args)|)
    ensures numPrb != 75 ==> UeB200Args(args, numPrb, ports) == WithSeparator(args) + UeB200Frames(numPrb, ports)
  {
    var w, f := WithSeparator(args), UeB200Frames(numPrb, ports);
    if numPrb == 75 {
      assert UeB200Args(args, numPrb, ports) == w + MasterClock + f;
      InfixOf(w, MasterClock, f);
    } else {
      assert UeB200Args(args, numPrb, ports) == w + "" + f;
      assert w + "" + f == w + f;
    }
  }

  /** The master clock rate written for 75 PRB is that cell's base sample rate: the text's
      `<MHz>.<two decimals>e6` number is `BaseSrate(75)`, with nothing lost to the two
      decimals. */
  lemma MasterClockIsBaseSrate()
    ensures BaseSrate(75) % 10000 == 0
    ensures MasterClock ==
      "master_clock_rate=" + NatToString(BaseSrate(75) / 1000000) + "." +
      NatToString(BaseSrate(75) / 10000 % 100) + "e6,"
  {
    assert BaseSrate(75) == 15360000;
    assert NatToString(15) == "15" by {
      assert NatToString(1) == "1";
    }
    assert NatToString(36) == "36" by {
      assert NatToString(3) == "3";
    }
  }

  // ---------------------------------------------------------------------------------------
  // Artifact paths

  /** The artifacts of one srsUE run inside one directory. */
  datatype UeFiles = UeFiles(config: string, log: string, pcap: string, metrics: string)

  function FilesIn(dir: string): UeFiles {
    UeFiles(Child(dir, CfgFile), Child(dir, LogFile), Child(dir, PcapFile), Child(dir, MetricsFile))
  }

  /** The layout on a remote host: the install directory and the run directory under the
      fixed prefix, and the artifacts inside the run directory. */
  datatype RemoteUe = RemoteUe(inst: string, runDir: string, files: UeFiles)

  function RemoteLayout(inst: string): RemoteUe {
    var runDir := Child(RemoteDir, BinFile);
    RemoteUe(Child(RemoteDir, Basename(inst)), runDir, FilesIn(runDir))
  }

  /** The paths written into the configuration: the remote ones exactly when the UE runs on a
      remote host. */
  function ConfigFiles(isLocal: bool, runDir: string, inst: string): UeFiles {
    if isLocal then FilesIn(runDir) else RemoteLayout(inst).files
  }

  /** A file keeps its name whether it is placed in the local or in the remote directory. */
  lemma SameName(remoteDir: string, localDir: string, name: string)
    requires '/' !in name
    ensures Basename(Child(remoteDir, name)) == Basename(Child(localDir, name)) == name
  {
    BasenameChild(remoteDir, name);
    BasenameChild(localDir, name);
  }

  /** Every remote artifact carries the same file name as its local counterpart, and the
      remote install directory is named after the local one. */
  lemma RemoteMirrorsLocal(runDir: string, inst: string)
    ensures var r := RemoteLayout(inst); var l := FilesIn(runDir);
      Basename(r.inst) == Basename(inst) &&
      Basename(r.files.config) == Basename(l.config) == CfgFile &&
      Basename(r.files.log) == Basename(l.log) == LogFile &&
      Basename(r.files.pcap) == Basename(l.pcap) == PcapFile &&
      Basename(r.files.metrics) == Basename(l.metrics) == MetricsFile
  {
    var remoteRun := Child(RemoteDir, BinFile);
    BasenameChild(RemoteDir, Basename(inst));
    SameName(remoteRun, runDir, CfgFile);
    SameName(remoteRun, runDir, LogFile);
    SameName(remoteRun, runDir, PcapFile);
    SameName(remoteRun, runDir, MetricsFile);
  }

  /** The operations that put the install tree and the configuration on the remote host. */
  function StagingOps(inst: string, files: UeFiles, remote: RemoteUe): seq<RemoteOp> {
    [RecreateDir(remote.inst), ScpTo("scp-inst-to-remote", inst, RemoteDir),
     RecreateDir(remote.runDir), ScpTo("scp-cfg-to-remote", files.config, remote.files.config)]
  }

  // ---------------------------------------------------------------------------------------
  // Configuration values

  /** What the UE asks of the eNB it attaches to. */
  datatype CellView = CellView(numPorts: int, numPrb: int, zmqArgsForUe: string)

  /** What `configure` combines: the srsue defaults, the suite's `modem` section, the UE's own
      resource configuration, where it runs, its run and install directories, the cell of the
      eNB and the subscriber's OPc. */
  datatype UeInputs = UeInputs(defaults: Namespace, modem: Namespace, conf: Namespace, isLocal: bool,
                               runDir: string, inst: string, cell: CellView, opc: Value)

  function PathPatch(f: UeFiles): Namespace {
    map["metrics_filename" := VStr(f.metrics), "log_filename" := VStr(f.log), "pcap_filename" := VStr(f.pcap)]
  }

  /** All additional arguments split at whitespace, in order. */
  function WordsOfAll(list: seq<string>): seq<string> {
    if |list| == 0 then [] else WordsOfAll(list[..|list| - 1]) + Words(list[|list| - 1])
  }

  /** The `ue` namespace once the configurations, the antenna count, the OPc and the file
      names are overlaid, before `enable_pcap` is normalised. */
  function PathUeValues(u: UeInputs): Namespace {
    var v0 := Overlay(Overlay(Overlay(u.defaults, u.modem), u.conf),
                      map["num_antennas" := VInt(u.cell.numPorts), "opc" := u.opc]);
    Overlay(v0, PathPatch(ConfigFiles(u.isLocal, u.runDir, u.inst)))
  }

  /** The pcap flag: the configured `enable_pcap`, `'false'` when absent, through the string to
      boolean conversion `toBool`. */
  function PcapEnabled(u: UeInputs, toBool: Value -> bool): bool {
    toBool(Get(PathUeValues(u), "enable_pcap", VStr("false")))
  }

  /** The `ue` namespace before the radio-specific `rf_dev_args` edits. */
  function BaseUeValues(u: UeInputs, toBool: Value -> bool): Namespace {
    var v2 := Overlay(PathUeValues(u), map["enable_pcap" := VBool(PcapEnabled(u, toBool))]);
    Overlay(v2, map["rf_dev_sync" := Get(v2, "rf_dev_sync", VNone)])
  }

  /** The `rf_dev_args` override: the ZMQ string for a ZMQ UE, the B200 edit for a UHD UE whose
      arguments mention `b200`, nothing otherwise. */
  function UeRfArgs(conf: Namespace, v: Namespace, cell: CellView, nc: int, nnr: int): Result<Option<string>> {
    if GetStr(conf, "rf_dev_type") == Some("zmq") then
      match ZmqRfDevArgs(cell.zmqArgsForUe, nc, cell.numPorts, nnr, cell.numPrb)
      case Err(e) => Err(e)
      case Ok(a) => Ok(Some(a))
    else if GetStr(conf, "rf_dev_type") == Some("uhd") && GetStr(v, "rf_dev_args").Some?
            && Contains(GetStr(v, "rf_dev_args").value, "b200") then
      Ok(Some(UeB200Args(GetStr(v, "rf_dev_args").value, cell.numPrb, cell.numPorts)))
    else Ok(None)
  }

  /** The carrier counts `int(...get('num_carriers', 1))` and `int(...get('num_nr_carriers',
      0))`; the first conversion that fails raises. */
  function CarrierCounts(v: Namespace): Result<(int, int)> {
    match GetInt(v, "num_carriers", 1)
    case Err(e) => Err(e)
    case Ok(nc) =>
      match GetInt(v, "num_nr_carriers", 0)
      case Err(e) => Err(e)
      case Ok(nnr) => Ok((nc, nnr))
  }

  /** Carrier counts are read as Python reads them: absent counts are 1 and 0, counts given as
      numbers or as decimal text are those numbers, and any other text raises. */
  lemma CarrierCountsRead(v: Namespace, nc: int, nnr: int)
    ensures "num_carriers" !in v && "num_nr_carriers" !in v ==> CarrierCounts(v) == Ok((1, 0))
    ensures var w := v["num_carriers" := VStr(IntToString(nc))]["num_nr_carriers" := VStr(IntToString(nnr))];
      CarrierCounts(w) == Ok((nc, nnr))
    ensures var w := v["num_carriers" := VInt(nc)]["num_nr_carriers" := VInt(nnr)];
      CarrierCounts(w) == Ok((nc, nnr))
    ensures CarrierCounts(v["num_carriers" := VStr("two")]).Err?
  {
    PyIntReadsBack(nc);
    PyIntReadsBack(nnr);
    assert !IsIntLiteral("two") by { assert !IsDigit("two"[0]); }
  }

  /** The complete `ue` namespace rendered into the configuration file. */
  function UeValues(u: UeInputs, toBool: Value -> bool): Result<Namespace> {
    var v := BaseUeValues(u, toBool);
    match CarrierCounts(v)
    case Err(e) => Err(e)
    case Ok(counts) =>
      match UeRfArgs(u.conf, v, u.cell, counts.0, counts.1)
      case Err(e) => Err(e)
      case Ok(None) => Ok(v)
      case Ok(Some(a)) => Ok(Overlay(v, map["rf_dev_args" := VStr(a)]))
  }

  /** The keys the wrapper itself sets before the radio edits. */
  lemma BaseUeValuesKeys(u: UeInputs, toBool: Value -> bool)
    ensures var b := BaseUeValues(u, toBool);
      var files := ConfigFiles(u.isLocal, u.runDir, u.inst);
      "metrics_filename" in b && b["metrics_filename"] == VStr(files.metrics) &&
      "log_filename" in b && b["log_filename"] == VStr(files.log) &&
      "pcap_filename" in b && b["pcap_filename"] == VStr(files.pcap) &&
      "enable_pcap" in b && b["enable_pcap"] == VBool(PcapEnabled(u, toBool)) &&
      "num_antennas" in b && b["num_antennas"] == VInt(u.cell.numPorts) &&
      "opc" in b && b["opc"] == u.opc &&
      "rf_dev_sync" in b
  {
    var v0 := Overlay(Overlay(Overlay(u.defaults, u.modem), u.conf),
                      map["num_antennas" := VInt(u.cell.numPorts), "opc" := u.opc]);
    assert "num_antennas" in v0 && v0["num_antennas"] == VInt(u.cell.numPorts);
    assert "opc" in v0 && v0["opc"] == u.opc;
    PathStage(v0, ConfigFiles(u.isLocal, u.runDir, u.inst), PcapEnabled(u, toBool));
  }

  lemma PathStage(v0: Namespace, files: UeFiles, enablePcap: bool)
    requires "num_antennas" in v0 && "opc" in v0
    ensures var v2 := Overlay(Overlay(v0, PathPatch(files)), map["enable_pcap" := VBool(enablePcap)]);
      var b := Overlay(v2, map["rf_dev_sync" := Get(v2, "rf_dev_sync", VNone)]);
      "metrics_filename" in b && b["metrics_filename"] == VStr(files.metrics) &&
      "log_filename" in b && b["log_filename"] == VStr(files.log) &&
      "pcap_filename" in b && b["pcap_filename"] == VStr(files.pcap) &&
      "enable_pcap" in b && b["enable_pcap"] == VBool(enablePcap) &&
      "num_antennas" in b && b["num_antennas"] == v0["num_antennas"] &&
      "opc" in b && b["opc"] == v0["opc"] &&
      "rf_dev_sync" in b
  {
    var v1 := Overlay(v0, PathPatch(files));
    assert "num_antennas" != "log_filename" by { assert "num_antennas"[0] != "log_filename"[0]; }
    assert "opc" != "log_filename" && "opc" != "metrics_filename" && "opc" != "pcap_filename"
      by { assert "opc"[0] != "log_filename"[0] && "opc"[0] != "metrics_filename"[0]; assert "opc"[1] != "pcap_filename"[1]; }
    assert "num_antennas" !in PathPatch(files) && "opc" !in PathPatch(files);
    assert v1["metrics_filename"] == VStr(files.metrics) && v1["log_filename"] == VStr(files.log)
      && v1["pcap_filename"] == VStr(files.pcap) && v1["num_antennas"] == v0["num_antennas"] && v1["opc"] == v0["opc"];
  }

  /** The `rf_dev_sync` pass-through leaves the settings `configure` reads before it alone. */
  lemma SyncKeepsSettings(w: Namespace)
    ensures var b := Overlay(w, map["rf_dev_sync" := Get(w, "rf_dev_sync", VNone)]);
      GetList(b, "additional_args") == GetList(w, "additional_args") &&
      GetInt(b, "num_carriers", 1) == GetInt(w, "num_carriers", 1) &&
      GetInt(b, "num_nr_carriers", 0) == GetInt(w, "num_nr_carriers", 0)
  {
    assert "additional_args"[0] != "rf_dev_sync"[0] && "num_carriers"[0] != "rf_dev_sync"[0]
      && "num_nr_carriers"[0] != "rf_dev_sync"[0];
  }

  /** The keys `configure` sets itself. */
  predicate WrapperKey(k: string) {
    k == "num_antennas" || k == "opc" || k == "metrics_filename" || k == "log_filename" ||
    k == "pcap_filename" || k == "enable_pcap" || k == "rf_dev_sync" || k == "rf_dev_args"
  }

  /** The first three overlays: the UE's own configuration over the `modem` section over the
      defaults. */
  function Merged(u: UeInputs): Namespace {
    Overlay(Overlay(u.defaults, u.modem), u.conf)
  }

  /** A key `configure` does not set itself comes from the first three overlays. */
  lemma BaseFromMerged(u: UeInputs, toBool: Value -> bool, k: string)
    requires !WrapperKey(k)
    ensures var b := BaseUeValues(u, toBool);
      (k in b <==> k in Merged(u)) && (k in b ==> b[k] == Merged(u)[k])
  {
    var m := Merged(u);
    var v0 := Overlay(m, map["num_antennas" := VInt(u.cell.numPorts), "opc" := u.opc]);
    assert k in v0 <==> k in m;
    assert k in v0 ==> v0[k] == m[k];
    var v1 := Overlay(v0, PathPatch(ConfigFiles(u.isLocal, u.runDir, u.inst)));
    assert k in v1 <==> k in v0;
    assert k in v1 ==> v1[k] == v0[k];
    assert v1 == PathUeValues(u);
    var v2 := Overlay(v1, map["enable_pcap" := VBool(PcapEnabled(u, toBool))]);
    assert k in v2 <==> k in v1;
    assert k in v2 ==> v2[k] == v1[k];
  }

  /** For every other key the UE's own configuration wins over the `modem` section, which
      wins over the defaults. */
  lemma UeValuesPrecedence(u: UeInputs, toBool: Value -> bool, k: string)
    requires UeValues(u, toBool).Ok? && !WrapperKey(k)
    ensures var v := UeValues(u, toBool).value;
      (k in v <==> k in u.conf || k in u.modem || k in u.defaults) &&
      (k in u.conf ==> v[k] == u.conf[k]) &&
      (k !in u.conf && k in u.modem ==> v[k] == u.modem[k]) &&
      (k !in u.conf && k !in u.modem && k in u.defaults ==> v[k] == u.defaults[k])
  {
    BaseFromMerged(u, toBool, k);
    UeValuesKeepsBase(u, toBool);
  }

  /** The radio edits touch `rf_dev_args` only. */
  lemma UeValuesKeepsBase(u: UeInputs, toBool: Value -> bool)
    requires UeValues(u, toBool).Ok?
    ensures var b := BaseUeValues(u, toBool); var v := UeValues(u, toBool).value;
      v.Keys == b.Keys + {"rf_dev_args"} || v == b
    ensures var b := BaseUeValues(u, toBool); var v := UeValues(u, toBool).value;
      forall k :: k in b && k != "rf_dev_args" ==> k in v && v[k] == b[k]
  {
    var b := BaseUeValues(u, toBool);
    var counts := CarrierCounts(b).value;
    match UeRfArgs(u.conf, b, u.cell, counts.0, counts.1)
    case Ok(None) =>
    case Ok(Some(a)) => RfEditKeeps(b, a);
  }

  /** Setting `rf_dev_args` adds that key and keeps every other. */
  lemma RfEditKeeps(b: Namespace, a: string)
    ensures var v := Overlay(b, map["rf_dev_args" := VStr(a)]);
      v.Keys == b.Keys + {"rf_dev_args"} && forall k :: k in b && k != "rf_dev_args" ==> k in v && v[k] == b[k]
  {
  }

  /** The file names in the configuration are the remote paths exactly when the UE is remote,
      and neither they nor the antenna count, the OPc and the pcap flag are touched by the radio
      edits. */
  lemma UeValuesPaths(u: UeInputs, toBool: Value -> bool)
    requires UeValues(u, toBool).Ok?
    ensures var v := UeValues(u, toBool).value;
      var dir := if u.isLocal then u.runDir else Child(RemoteDir, BinFile);
      "metrics_filename" in v && v["metrics_filename"] == VStr(dir + "/" + MetricsFile) &&
      "log_filename" in v && v["log_filename"] == VStr(dir + "/" + LogFile) &&
      "pcap_filename" in v && v["pcap_filename"] == VStr(dir + "/" + PcapFile) &&
      "enable_pcap" in v && v["enable_pcap"] == VBool(PcapEnabled(u, toBool)) &&
      "num_antennas" in v && v["num_antennas"] == VInt(u.cell.numPorts) &&
      "opc" in v && v["opc"] == u.opc &&
      "rf_dev_sync" in v
  {
    BaseUeValuesKeys(u, toBool);
    UeValuesKeepsBase(u, toBool);
  }

  /** A ZMQ UE gets its `rf_dev_args` from the ZMQ builder, with the carrier counts read from the
      merged configuration; the configuration fails exactly when a count does not convert or
      the builder fails. */
  lemma UeValuesZmq(u: UeInputs, toBool: Value -> bool)
    requires GetStr(u.conf, "rf_dev_type") == Some("zmq")
    ensures var b := BaseUeValues(u, toBool); var counts := CarrierCounts(b);
      var r := UeValues(u, toBool);
      (counts.Err? ==> r.Err?) &&
      (counts.Ok? ==>
         var z := ZmqRfDevArgs(u.cell.zmqArgsForUe, counts.value.0, u.cell.numPorts, counts.value.1, u.cell.numPrb);
         (r.Ok? <==> z.Ok?) && (r.Ok? ==> "rf_dev_args" in r.value && r.value["rf_dev_args"] == VStr(z.value)))
  {
  }

  /** Other radio types fail only on a carrier count that does not convert. */
  lemma UeValuesNonZmq(u: UeInputs, toBool: Value -> bool)
    requires GetStr(u.conf, "rf_dev_type") != Some("zmq")
    ensures UeValues(u, toBool).Ok? <==> CarrierCounts(BaseUeValues(u, toBool)).Ok?
  {
  }

  // ---------------------------------------------------------------------------------------
  // Console observers

  const RrcConnectedMarker := "RRC Connected"
  const RrcIdleMarker := "RRC IDLE"
  const AttachMarker := "Network attach successful."
  const AttachIpMarker := "Network attach successful. IP: "

  /** RRC connected: the last "RRC Connected" comes after the last "RRC IDLE". */
  predicate IsRrcConnected(stdout: string) {
    RFind(stdout, RrcConnectedMarker) > RFind(stdout, RrcIdleMarker)
  }

  /** Connected exactly when some "RRC Connected" has no "RRC IDLE" at or after it; so never
      when "RRC Connected" was not printed, and always when only it was printed. */
  lemma RrcConnectedMeaning(stdout: string)
    ensures IsRrcConnected(stdout) <==>
      exists p :: OccursAt(stdout, RrcConnectedMarker, p) &&
        forall q :: q >= p ==> !OccursAt(stdout, RrcIdleMarker, q)
    ensures !Contains(stdout, RrcConnectedMarker) ==> !IsRrcConnected(stdout)
    ensures Contains(stdout, RrcConnectedMarker) && !Contains(stdout, RrcIdleMarker) ==> IsRrcConnected(stdout)
  {
    var c := RFind(stdout, RrcConnectedMarker);
    var i := RFind(stdout, RrcIdleMarker);
    if IsRrcConnected(stdout) {
      assert OccursAt(stdout, RrcConnectedMarker, c);
      forall q | q >= c
        ensures !OccursAt(stdout, RrcIdleMarker, q)
      {
        assert i < c <= q;
      }
    }
    if exists p :: OccursAt(stdout, RrcConnectedMarker, p) && forall q :: q >= p ==> !OccursAt(stdout, RrcIdleMarker, q) {
      var p :| OccursAt(stdout, RrcConnectedMarker, p) && forall q :: q >= p ==> !OccursAt(stdout, RrcIdleMarker, q);
      assert c >= p;
      assert i >= 0 ==> OccursAt(stdout, RrcIdleMarker, i);
    }
    if Contains(stdout, RrcConnectedMarker) {
      assert OccursAt(stdout, RrcConnectedMarker, Find(stdout, RrcConnectedMarker));
    }
  }

  /** EMM registered: the attach message was printed. */
  predicate IsRegistered(stdout: string) {
    Contains(stdout, AttachMarker)
  }

  /** The console marker each named counter counts. */
  function CounterMarker(name: string): Option<string> {
    match name
    case "handover_success" => Some("HO successful")
    case "prach_sent" => Some("Random Access Transmission: seq=")
    case "prach_sent_nr" => Some("Random Access Transmission: prach_occasion=")
    case "paging_received" => Some("S-TMSI match in paging message")
    case "reestablishment_attempts" => Some("RRC Connection Reestablishment")
    case "reestablishment_ok" => Some("Reestablishment OK")
    case "rrc_connected_transitions" => Some(RrcConnectedMarker)
    case "rrc_idle_transitions" => Some(RrcIdleMarker)
    case _ => None
  }

  /** `get_counter`: asks the process how often the counter's marker appeared; unknown names
      raise. How the process counts is not part of this model. */
  function GetCounter(name: string, countOf: string -> int): (r: Result<int>)
    ensures r.Ok? <==> CounterMarker(name).Some?
    ensures r.Ok? ==> r.value == countOf(CounterMarker(name).value)
  {
    match CounterMarker(name)
    case None => Err("counter " + name + " not implemented!")
    case Some(marker) => Ok(countOf(marker))
  }

  /** Different counters count different markers, and the RRC transition counters count the
      markers the RRC state observer compares. */
  lemma CounterMarkersDistinct(a: string, b: string)
    requires CounterMarker(a).Some? && CounterMarker(b).Some? && a != b
    ensures CounterMarker(a) != CounterMarker(b)
    ensures CounterMarker("rrc_connected_transitions") == Some(RrcConnectedMarker)
    ensures CounterMarker("rrc_idle_transitions") == Some(RrcIdleMarker)
  {
  }

  // ---------------------------------------------------------------------------------------
  // Dotted-quad extraction: `re.findall(r'[0-9]+(?:\.[0-9]+){3}', line)[0]`

  /** End of the run of digits starting at `i`. */
  function DigitsEnd(s: string, i: nat): (e: nat)
    requires i <= |s|
    ensures i <= e <= |s|
    ensures forall k :: i <= k < e ==> IsDigit(s[k])
    ensures e < |s| ==> !IsDigit(s[e])
    decreases |s| - i
  {
    if i == |s| || !IsDigit(s[i]) then i else DigitsEnd(s, i + 1)
  }

  /** `t` is a run of digits followed by `groups` times a dot and a run of digits. */
  predicate DottedDigits(t: string, groups: nat)
    decreases groups
  {
    if groups == 0 then |t| > 0 && forall k :: 0 <= k < |t| ==> IsDigit(t[k])
    else
      var i := IndexOf(t, '.');
      i > 0 && (forall k :: 0 <= k < i ==> IsDigit(t[k])) && DottedDigits(t[i + 1..], groups - 1)
  }

  /** Where `[0-9]+(?:\.[0-9]+){groups}` matching at `p` ends, or -1. Every `[0-9]+` takes the
      whole run of digits: a shorter run is followed by a digit, never by the dot the pattern
      needs next, and the last run is greedy. */
  function MatchAt(s: string, p: nat, groups: nat): (e: int)
    requires p <= |s|
    ensures e == -1 || (p < e <= |s| && DottedDigits(s[p..e], groups))
    decreases groups
  {
    var d := DigitsEnd(s, p);
    if d == p then -1
    else if groups == 0 then d
    else if d < |s| && s[d] == '.' then
      var e := MatchAt(s, d + 1, groups - 1);
      if e == -1 then -1
      else
        DottedStep(s, p, d, e, groups);
        e
    else -1
  }

  lemma DottedStep(s: string, p: nat, d: nat, e: nat, groups: nat)
    requires p < d < e <= |s| && groups >= 1 && s[d] == '.'
    requires forall k :: p <= k < d ==> IsDigit(s[k])
    requires DottedDigits(s[d + 1..e], groups - 1)
    ensures DottedDigits(s[p..e], groups)
  {
    var t := s[p..e];
    assert t[d - p] == '.';
    assert forall k :: 0 <= k < d - p ==> t[k] == s[p + k] && IsDigit(t[k]);
    var u := t[..d - p];
    assert '.' !in u by {
      forall k | 0 <= k < |u| ensures u[k] != '.' {
        assert u[k] == t[k] && IsDigit(t[k]);
      }
    }
    IndexOfAt(t, '.', d - p);
    assert t[d - p + 1..] == s[d + 1..e];
  }

  /** Where the leftmost match at or after `p` starts, or -1. */
  function FirstMatchFrom(s: string, p: nat): (q: int)
    requires p <= |s|
    ensures q == -1 || (p <= q < |s| && MatchAt(s, q, 3) >= 0)
    ensures forall j :: p <= j < |s| && (q == -1 || j < q) ==> MatchAt(s, j, 3) == -1
    decreases |s| - p
  {
    if p == |s| then -1
    else if MatchAt(s, p, 3) >= 0 then p
    else FirstMatchFrom(s, p + 1)
  }

  /** `re.findall(...)[0]`: the leftmost match, if any. */
  function FirstQuad(s: string): (r: Option<string>)
    ensures r.Some? ==> DottedDigits(r.value, 3)
    ensures r.None? ==> forall j :: 0 <= j < |s| ==> MatchAt(s, j, 3) == -1
  {
    var q := FirstMatchFrom(s, 0);
    if q == -1 then None else Some(s[q..MatchAt(s, q, 3)])
  }

  /** Index of the last line containing `marker`, or -1. */
  function LastLineWith(lines: seq<string>, marker: string): (k: int)
    ensures -1 <= k < |lines|
    ensures k >= 0 ==> Contains(lines[k], marker)
    ensures forall j :: k < j < |lines| ==> !Contains(lines[j], marker)
  {
    if |lines| == 0 then -1
    else if Contains(lines[|lines| - 1], marker) then |lines| - 1
    else LastLineWith(lines[..|lines| - 1], marker)
  }

  /** `get_assigned_addr`: the first dotted quad of the last line carrying the attach-with-IP
      message, `None` without such a line; IPv6 and a marker line without an address raise. */
  function AssignedAddr(ipv6: bool, stdout: string): Result<Option<string>> {
    if ipv6 then Err("IPv6 not implemented!")
    else AddrOfLines(SplitLines(stdout))
  }

  /** The address on the last marker line, if there is one. */
  function AddrOfLines(lines: seq<string>): Result<Option<string>> {
    var k := LastLineWith(lines, AttachIpMarker);
    if k < 0 then Ok(None) else AddrOfLine(lines[k])
  }

  /** The address on a marker line; a line without one fails as the empty `findall` does. */
  function AddrOfLine(line: string): Result<Option<string>> {
    match FirstQuad(line)
    case None => Err("list index out of range")
    case Some(a) => Ok(Some(a))
  }

  /** An extracted address is four dot-separated digit runs, and the UE then counts as
      registered. */
  lemma AssignedAddrRegistered(stdout: string)
    requires AssignedAddr(false, stdout).Ok? && AssignedAddr(false, stdout).value.Some?
    ensures DottedDigits(AssignedAddr(false, stdout).value.value, 3)
    ensures IsRegistered(stdout)
  {
    var lines := SplitLines(stdout);
    var k := LastLineWith(lines, AttachIpMarker);
    var q := SplitLinesOccur(stdout, k, lines[k]);
    ContainsInfix(stdout, lines[k], q, AttachIpMarker);
    var at := Find(stdout, AttachIpMarker);
    assert OccursAt(stdout, AttachIpMarker, at);
    assert OccursAt(AttachIpMarker, AttachMarker, 0) by {
      assert AttachIpMarker[0..|AttachMarker|] == AttachMarker;
    }
    ContainsAt(AttachIpMarker, AttachMarker, 0);
    ContainsInfix(stdout, AttachIpMarker, at, AttachMarker);
  }

  lemma AddrOfLastLine(lines: seq<string>, k: int)
    requires 0 <= k < |lines| && LastLineWith(lines, AttachIpMarker) == k
    ensures AddrOfLines(lines) == AddrOfLine(lines[k])
  {
  }

  /** The reverse line scan of `get_assigned_addr`: the last line carrying the marker. */
  method FindLastLineWith(lines: seq<string>, marker: string) returns (k: int)
    ensures k == LastLineWith(lines, marker)
  {
    var i := |lines|;
    while i > 0
      invariant 0 <= i <= |lines|
      invariant LastLineWith(lines, marker) == LastLineWith(lines[..i], marker)
    {
      if Find(lines[i - 1], marker) != -1 {
        assert lines[..i][i - 1] == lines[i - 1];
        return i - 1;
      }
      assert lines[..i][..i - 1] == lines[..i - 1];
      i := i - 1;
    }
    assert lines[..0] == [];
    k := -1;
  }

  /** `get_assigned_addr`. */
  method GetAssignedAddr(ipv6: bool, stdout: string) returns (r: Result<Option<string>>)
    ensures r == AssignedAddr(ipv6, stdout)
  {
    if ipv6 {
      return Err("IPv6 not implemented!");
    }
    var lines := SplitLines(stdout);
    var k := FindLastLineWith(lines, AttachIpMarker);
    if k < 0 {
      return Ok(None);
    }
    var found := FirstQuad(lines[k]);
    if found.None? {
      r := Err("list index out of range");
    } else {
      r := Ok(Some(found.value));
    }
    AddrOfLastLine(lines, k);
  }

  // ---------------------------------------------------------------------------------------
  // The srsUE object

  /** What a start needs: the binary, its library directory, the configuration file and the
      process name. */
  datatype StartPlan = StartPlan(binary: string, lib: string, config: string, name: string)

  /** The preparation before the launch: the RPATH patch (capabilities disable
      `LD_LIBRARY_PATH`), CAP_SYS_ADMIN and CAP_NET_ADMIN on the binary, the network namespace. */
  function StartOps(p: StartPlan): seq<RemoteOp> {
    [ChangeRpath(p.binary, p.lib), SetCap(p.binary, "CAP_SYS_ADMIN+CAP_NET_ADMIN"), CreateNetns(NetNs)]
  }

  /** The command line: binary, configuration file, network namespace, then the additional
      arguments. */
  function StartArgv(p: StartPlan, additionalArgs: seq<string>): (argv: seq<string>)
    ensures |argv| == 3 + |additionalArgs| && argv[0] == p.binary && argv[1] == p.config
    ensures argv[3..] == additionalArgs
  {
    [p.binary, p.config, "--gw.netns=" + NetNs] + additionalArgs
  }

  class SrsUe {
    var runNode: RunNode
    /** The resource configuration the object was created from. */
    var conf: Namespace
    var inst: string
    /** Local artifact paths in the run directory. */
    var files: UeFiles
    /** The remote layout, set by `Configure` for a remote UE. */
    var remote: Option<RemoteUe>
    var enablePcap: bool
    var numCarriers: int
    var numNrCarriers: int
    var additionalArgs: seq<string>
    var process: Option<ProcessHandle>
    var haveMetricsFile: bool

    /** A remote UE has its remote layout once its process exists. */
    predicate Valid()
      reads this
    {
      process.Some? && !runNode.isLocal ==> remote.Some?
    }

    /** `srsue_<run address>`. */
    function Name(): string
      reads this`runNode
    {
      "srsue_" + runNode.runAddr
    }

    constructor(node: RunNode, resourceConf: Namespace)
      ensures runNode == node && conf == resourceConf
      ensures process.None? && remote.None? && !haveMetricsFile && !enablePcap
      ensures numCarriers == 1 && numNrCarriers == 0 && additionalArgs == []
      ensures Valid()
    {
      runNode := node;
      conf := resourceConf;
      inst := "";
      files := UeFiles("", "", "", "");
      remote := None;
      enablePcap := false;
      numCarriers := 1;
      numNrCarriers := 0;
      additionalArgs := [];
      process := None;
      haveMetricsFile := false;
    }

    /** `srsUE.__init__`'s check: the object is only created for a valid `rf_dev_type`. */
    static method Create(node: RunNode, resourceConf: Namespace) returns (r: Result<SrsUe>)
      ensures r.Ok? <==> GetStr(resourceConf, "rf_dev_type").Some? && RfTypeValid(GetStr(resourceConf, "rf_dev_type").value)
      ensures r.Ok? ==> fresh(r.value) && r.value.runNode == node && r.value.conf == resourceConf
      ensures r.Ok? ==> r.value.process.None? && !r.value.haveMetricsFile && r.value.Valid()
    {
      var t := GetStr(resourceConf, "rf_dev_type");
      if t.None? || !RfTypeValid(t.value) {
        return Err("Invalid rf_dev_type");
      }
      var ue := new SrsUe(node, resourceConf);
      r := Ok(ue);
    }

    /** The metrics copy operation; needs the remote layout. */
    function MetricsPull(): RemoteOp
      reads this`remote, this`files
      requires remote.Some?
    {
      ScpFrom("scp-back-metrics", remote.value.files.metrics, files.metrics)
    }

    function LogPull(): RemoteOp
      reads this`remote, this`files
      requires remote.Some?
    {
      ScpFrom("scp-back-log", remote.value.files.log, files.log)
    }

    function PcapPull(): RemoteOp
      reads this`remote, this`files
      requires remote.Some?
    {
      ScpFrom("scp-back-pcap", remote.value.files.pcap, files.pcap)
    }

    /** The whitespace split of the additional arguments. */
    static method SplitAdditionalArgs(list: seq<string>) returns (args: seq<string>)
      ensures args == WordsOfAll(list)
    {
      args := [];
      var i := 0;
      while i < |list|
        invariant 0 <= i <= |list|
        invariant args == WordsOfAll(list[..i])
      {
        assert list[..i + 1][..i] == list[..i];
        args := args + Words(list[i]);
        i := i + 1;
      }
      assert list[..|list|] == list;
    }

    /** The `rf_dev_args` edits of `configure`, step by step. */
    static method BuildRfDevArgs(resourceConf: Namespace, v: Namespace, cell: CellView, nc: int, nnr: int)
      returns (r: Result<Option<string>>)
      ensures r == UeRfArgs(resourceConf, v, cell, nc, nnr)
    {
      var rfDevType := GetStr(resourceConf, "rf_dev_type");
      if rfDevType == Some("zmq") {
        var baseSrate := BaseSrate(cell.numPrb);
        var rfDevArgs := cell.zmqArgsForUe;
        var freqs := ZmqFreqSuffix(nc, cell.numPorts, nnr);
        if freqs.Err? {
          return Err(freqs.error);
        }
        rfDevArgs := rfDevArgs + freqs.value;
        rfDevArgs := rfDevArgs + (ZmqIdTag + NatToString(baseSrate));
        return Ok(Some(rfDevArgs));
      }
      var given := GetStr(v, "rf_dev_args");
      if rfDevType == Some("uhd") && given.Some? && Contains(given.value, "b200") {
        var rfDevArgs := given.value;
        rfDevArgs := rfDevArgs + if rfDevArgs != "" && !EndsWith(rfDevArgs, ",") then "," else "";
        assert rfDevArgs == WithSeparator(given.value);
        if cell.numPrb == 75 {
          rfDevArgs := rfDevArgs + MasterClock;
        }
        ghost var clocked := rfDevArgs;
        assert clocked == WithSeparator(given.value) + (if cell.numPrb == 75 then MasterClock else "");
        if cell.numPorts == 1 {
          if cell.numPrb < 25 {
            rfDevArgs := rfDevArgs + Frames512;
          } else if cell.numPrb == 25 {
            rfDevArgs := rfDevArgs + Frames1024;
          }
        } else {
          rfDevArgs := rfDevArgs + Frames64;
        }
        assert rfDevArgs == clocked + UeB200Frames(cell.numPrb, cell.numPorts);
        assert rfDevArgs == UeB200Args(given.value, cell.numPrb, cell.numPorts);
        return Ok(Some(rfDevArgs));
      }
      r := Ok(None);
    }

    /** `configure`: checks the install tree, fixes the local and (for a remote UE) remote
        artifact paths, reads the pcap flag, the additional arguments and the carrier counts
        from the merged configuration, builds the `ue` namespace that is rendered into the
        configuration file and, for a remote UE, stages the install tree and the configuration
        on the remote host. */
    method Configure(runDir: string, instDir: string, hasLib: bool, hasBin: bool,
                     defaults: Namespace, modemCfg: Namespace, cell: CellView, opc: Value,
                     toBool: Value -> bool, ok: RemoteOp -> bool)
      returns (out: Outcome, rendered: Option<Namespace>, staged: seq<RemoteOp>)
      requires Valid()
      modifies this
      ensures Valid()
      ensures runNode == old(runNode) && conf == old(conf) && process == old(process)
      ensures haveMetricsFile == old(haveMetricsFile) && inst == instDir
      ensures !(hasLib && hasBin) ==>
        out.Fail? && rendered.None? && staged == [] && files == old(files) && remote == old(remote) &&
        enablePcap == old(enablePcap) && additionalArgs == old(additionalArgs) &&
        numCarriers == old(numCarriers) && numNrCarriers == old(numNrCarriers)
      ensures hasLib && hasBin ==>
        files == FilesIn(runDir) &&
        remote == (if runNode.isLocal then old(remote) else Some(RemoteLayout(instDir)))
      ensures hasLib && hasBin ==>
        var u := UeInputs(defaults, modemCfg, conf, runNode.isLocal, runDir, instDir, cell, opc);
        var base := BaseUeValues(u, toBool);
        enablePcap == PcapEnabled(u, toBool) &&
        additionalArgs == WordsOfAll(GetList(base, "additional_args")) &&
        numCarriers == GetInt(base, "num_carriers", 1).GetOr(old(numCarriers)) &&
        numNrCarriers == (if GetInt(base, "num_carriers", 1).Ok? then GetInt(base, "num_nr_carriers", 0).GetOr(old(numNrCarriers))
                          else old(numNrCarriers))
      ensures hasLib && hasBin ==>
        var spec := UeValues(UeInputs(defaults, modemCfg, conf, runNode.isLocal, runDir, instDir, cell, opc), toBool);
        (spec.Err? ==> out.Fail? && rendered.None? && staged == []) &&
        (spec.Ok? ==> rendered == Some(spec.value)) &&
        (spec.Ok? && runNode.isLocal ==> out.Pass? && staged == []) &&
        (spec.Ok? && !runNode.isLocal ==>
           staged == Attempted(StagingOps(instDir, files, remote.value), ok) &&
           (out.Pass? <==> FirstFailure(StagingOps(instDir, files, remote.value), ok) == 4))
    {
      inst := instDir;
      if !hasLib {
        return Fail("No lib/ in " + instDir), None, [];
      }
      if !hasBin {
        return Fail("No " + BinFile + " binary in " + instDir), None, [];
      }
      var u := UeInputs(defaults, modemCfg, conf, runNode.isLocal, runDir, instDir, cell, opc);
      var r, pcap, args, nc, nnr := ComposeValues(u, toBool);
      var carriers := nc.GetOr(numCarriers);
      var nrCarriers := if nc.Ok? then nnr.GetOr(numNrCarriers) else numNrCarriers;
      Record(FilesIn(runDir), if runNode.isLocal then remote else Some(RemoteLayout(instDir)), pcap, args,
             carriers, nrCarriers);
      if r.Err? {
        return Fail(r.error), None, [];
      }
      rendered := Some(r.value);
      if !runNode.isLocal {
        staged, out := RunRemoteOps(StagingOps(instDir, files, remote.value), ok);
      } else {
        staged, out := [], Pass;
      }
    }

    /** Records the paths and settings `configure` computes. */
    method Record(f: UeFiles, r: Option<RemoteUe>, pcap: bool, args: seq<string>, nc: int, nnr: int)
      modifies this
      ensures files == f && remote == r && enablePcap == pcap && additionalArgs == args
      ensures numCarriers == nc && numNrCarriers == nnr
      ensures runNode == old(runNode) && conf == old(conf) && inst == old(inst)
      ensures process == old(process) && haveMetricsFile == old(haveMetricsFile)
    {
      files, remote, enablePcap, additionalArgs, numCarriers, numNrCarriers := f, r, pcap, args, nc, nnr;
    }

    /** The value-building part of `configure`: the `ue` namespace rendered into the
        configuration file, or the error raised while building it, together with the settings
        read on the way. */
    static method ComposeValues(u: UeInputs, toBool: Value -> bool)
      returns (r: Result<Namespace>, pcap: bool, args: seq<string>, nc: Result<int>, nnr: Result<int>)
      ensures r == UeValues(u, toBool) && pcap == PcapEnabled(u, toBool)
      ensures var base := BaseUeValues(u, toBool);
        args == WordsOfAll(GetList(base, "additional_args")) &&
        nc == GetInt(base, "num_carriers", 1) && nnr == GetInt(base, "num_nr_carriers", 0)
    {
      var v;
      v, pcap, args, nc, nnr := ReadSettings(u, toBool);
      if nc.Err? {
        return Err(nc.error), pcap, args, nc, nnr;
      }
      if nnr.Err? {
        return Err(nnr.error), pcap, args, nc, nnr;
      }
      var rf := BuildRfDevArgs(u.conf, v, u.cell, nc.value, nnr.value);
      if rf.Err? {
        return Err(rf.error), pcap, args, nc, nnr;
      }
      if rf.value.Some? {
        v := Overlay(v, map["rf_dev_args" := VStr(rf.value.value)]);
      }
      r := Ok(v);
    }

    /** The part of `configure` that merges the configurations and reads the pcap flag, the
        additional arguments and the carrier counts; returns the namespace before the radio
        edits. */
    static method ReadSettings(u: UeInputs, toBool: Value -> bool)
      returns (v: Namespace, pcap: bool, args: seq<string>, nc: Result<int>, nnr: Result<int>)
      ensures v == BaseUeValues(u, toBool) && pcap == PcapEnabled(u, toBool)
      ensures args == WordsOfAll(GetList(v, "additional_args"))
      ensures nc == GetInt(v, "num_carriers", 1) && nnr == GetInt(v, "num_nr_carriers", 0)
    {
      v := PathUeValues(u);
      pcap := toBool(Get(v, "enable_pcap", VStr("false")));
      v := Overlay(v, map["enable_pcap" := VBool(pcap)]);
      args := SplitAdditionalArgs(GetList(v, "additional_args"));
      nc := GetInt(v, "num_carriers", 1);
      nnr := GetInt(v, "num_nr_carriers", 0);
      SyncKeepsSettings(v);
      v := Overlay(v, map["rf_dev_sync" := Get(v, "rf_dev_sync", VNone)]);
    }

    /** `scp_back_metrics`: at most once per object. A running process is stopped first, a
        remote UE copies the metrics file back, and the flag is set unless the copy failed and
        the caller asked for the failure to be raised. Without a process the call raises. */
    method ScpBackMetrics(raiseOnFailure: bool, ok: RemoteOp -> bool) returns (out: Outcome, copied: seq<RemoteOp>)
      requires Valid()
      modifies this
      ensures Valid()
      ensures runNode == old(runNode) && files == old(files) && remote == old(remote)
      ensures enablePcap == old(enablePcap)
      ensures old(haveMetricsFile) ==> out.Pass? && copied == [] && process == old(process) && haveMetricsFile
      ensures !old(haveMetricsFile) && old(process).None? ==> out.Fail? && copied == [] && process.None? && !haveMetricsFile
      ensures !old(haveMetricsFile) && old(process).Some? ==>
        process == Some(Stopped(old(process).value)) &&
        copied == (if runNode.isLocal then [] else [MetricsPull()]) &&
        (out.Fail? <==> raiseOnFailure && !runNode.isLocal && !ok(MetricsPull())) &&
        haveMetricsFile == out.Pass?
    {
      copied := [];
      if haveMetricsFile {
        return Pass, [];
      }
      if process.None? {
        return Fail("'NoneType' object has no attribute 'terminated'"), [];
      }
      if !process.value.terminated {
        process := Some(Stopped(process.value));
      }
      if !runNode.isLocal {
        var op := MetricsPull();
        copied := [op];
        out := Pull(op, ok, raiseOnFailure);
        if out.Fail? {
          return;
        }
      }
      haveMetricsFile := true;
      out := Pass;
    }

    /** `cleanup`: nothing for a missing process or a local UE; otherwise the metrics pull that
        never raises, the log pull, and the pcap pull when pcap capture is on. Every failure is
        logged and swallowed. */
    method Cleanup(ok: RemoteOp -> bool) returns (pulls: seq<RemoteOp>)
      requires Valid()
      modifies this
      ensures Valid()
      ensures old(process).None? || runNode.isLocal ==>
        (pulls == [] && process == old(process) && haveMetricsFile == old(haveMetricsFile))
      ensures old(process).Some? && !runNode.isLocal ==>
        process == (if old(haveMetricsFile) then old(process) else Some(Stopped(old(process).value))) &&
        remote.Some? &&
        pulls == (if old(haveMetricsFile) then [] else [MetricsPull()]) + [LogPull()]
                 + (if enablePcap then [PcapPull()] else []) &&
        haveMetricsFile
    {
      if process.None? || runNode.isLocal {
        return [];
      }
      var _, copied := ScpBackMetrics(false, ok);
      pulls := copied + [LogPull()];
      if enablePcap {
        pulls := pulls + [PcapPull()];
      }
    }

    /** The binary, library directory, configuration file and process name of a start: under
        the install tree on the master for a local UE (`start_locally`), under the remote
        layout for a remote one (`start_remotely`). */
    function Start(): StartPlan
      reads this`runNode, this`inst, this`files, this`remote
      requires runNode.isLocal || remote.Some?
    {
      if runNode.isLocal then
        StartPlan(Child(Child(inst, "bin"), BinFile), Child(inst, "lib"), files.config, Name())
      else
        StartPlan(Child(Child(remote.value.inst, "bin"), BinFile), Child(remote.value.inst, "lib"),
                  remote.value.files.config, BinFile)
    }

    /** `connect`: configures, runs the pre-run scripts, patches the binary's RPATH, grants it
        the network capabilities, creates its network namespace and starts srsUE. A failing
        step raises before the process is launched. */
    method Connect(runDir: string, instDir: string, hasLib: bool, hasBin: bool,
                   defaults: Namespace, modemCfg: Namespace, cell: CellView, opc: Value,
                   toBool: Value -> bool, ok: RemoteOp -> bool, exitOf: seq<string> -> int)
      returns (out: Outcome)
      requires Valid()
      modifies this
      ensures Valid()
      ensures runNode == old(runNode) && conf == old(conf)
      ensures out.Fail? ==> process == old(process)
      ensures out.Pass? <==>
        hasLib && hasBin && UeValues(UeInputs(defaults, modemCfg, conf, runNode.isLocal, runDir, instDir, cell, opc), toBool).Ok? &&
        (forall k :: 0 <= k < |GetList(conf, "prerun_scripts")| ==> Passes(exitOf)(GetList(conf, "prerun_scripts")[k])) &&
        (runNode.isLocal || remote.Some?) &&
        (!runNode.isLocal ==> FirstFailure(StagingOps(instDir, files, remote.value), ok) == 4) &&
        FirstFailure(StartOps(Start()), ok) == 3
      ensures out.Pass? ==> process == Some(Launch(Start().name, StartArgv(Start(), additionalArgs)))
    {
      ghost var u := UeInputs(defaults, modemCfg, conf, runNode.isLocal, runDir, instDir, cell, opc);
      var configured, _, _ := Configure(runDir, instDir, hasLib, hasBin, defaults, modemCfg, cell, opc, toBool, ok);
      ghost var staged := (runNode.isLocal || remote.Some?) &&
        (!runNode.isLocal ==> FirstFailure(StagingOps(instDir, files, remote.value), ok) == 4);
      if configured.Fail? {
        assert !(hasLib && hasBin && UeValues(u, toBool).Ok? && staged);
        return configured;
      }
      assert hasLib && hasBin && UeValues(u, toBool).Ok? && staged;
      out := PrerunAndStart(ok, exitOf);
    }

    /** The rest of `connect` once configured: the pre-run scripts, then the start. */
    method PrerunAndStart(ok: RemoteOp -> bool, exitOf: seq<string> -> int) returns (out: Outcome)
      requires runNode.isLocal || remote.Some?
      modifies this`process
      ensures out.Pass? <==>
        (forall k :: 0 <= k < |GetList(conf, "prerun_scripts")| ==> Passes(exitOf)(GetList(conf, "prerun_scripts")[k])) &&
        FirstFailure(StartOps(Start()), ok) == 3
      ensures out.Pass? ==> process == Some(Launch(Start().name, StartArgv(Start(), additionalArgs)))
      ensures out.Fail? ==> process == old(process)
      ensures unchanged(this`runNode, this`conf, this`remote)
    {
      var _, res := RunTasks(Some(GetList(conf, "prerun_scripts")), exitOf);
      if res.Err? {
        return Fail(res.error);
      }
      out := StartProcess(ok);
    }

    /** `start_locally` / `start_remotely`: prepares the binary and launches srsUE. A failing
        preparation step raises before the launch. */
    method StartProcess(ok: RemoteOp -> bool) returns (out: Outcome)
      requires runNode.isLocal || remote.Some?
      modifies this`process
      ensures out.Pass? <==> FirstFailure(StartOps(Start()), ok) == 3
      ensures out.Pass? ==> process == Some(Launch(Start().name, StartArgv(Start(), additionalArgs)))
      ensures out.Fail? ==> process == old(process)
    {
      var plan := Start();
      var _, prepared := RunRemoteOps(StartOps(plan), ok);
      if prepared.Fail? {
        return prepared;
      }
      process := Some(Launch(plan.name, StartArgv(plan, additionalArgs)));
      out := Pass;
    }

    /** `verify_metric`: copies the metrics back (raising on failure) and checks them. The
        parsed table stands for the CSV file. */
    method VerifyMetric(table: UeMetrics.Table, value: real, operation: string, metric: string,
                        criterion: string, window: int, ok: RemoteOp -> bool)
      returns (v: UeMetrics.Verdict)
      requires Valid()
      modifies this
      ensures Valid()
      ensures haveMetricsFile ==> v == UeMetrics.VerifySpec(table, value, operation, metric, criterion, window)
      ensures !haveMetricsFile ==> v.Rejected?
      ensures old(haveMetricsFile) ==> process == old(process)
    {
      var copy, _ := ScpBackMetrics(true, ok);
      if copy.Fail? {
        return UeMetrics.Rejected(copy.error);
      }
      v := UeMetrics.Verify(table, value, operation, metric, criterion, window);
    }
  }
}

/** The Amarisoft UE (`lteue`) wrapper: its bandwidth tables, the ZMQ and B200 device
    arguments, where its artifacts live, the two configuration namespaces it renders and its
    registration marker. */
module MsAmarisoft {
  import opened Text
  import opened Base
  import MsSrs
  import EnbSrs

  const RemoteDir := "/osmo-gsm-tester-amarisoftue"
  const BinFile := "lteue"
  const CfgFile := "amarisoft_lteue.cfg"
  const CfgFileRf := "amarisoft_rf_driver.cfg"
  const LogFile := "lteue.log"
  const IfupFile := "ue-ifup"
  const NetNs := "amarisoftue1"

  /** The radio front ends the Amarisoft UE accepts. */
  predicate RfTypeValid(t: string) {
    t == "uhd" || t == "zmq"
  }

  /** Amarisoft accepts a strict subset of the front ends srsUE and srsENB accept. */
  lemma RfTypesOfAmarisoft(t: string)
    ensures RfTypeValid(t) ==> MsSrs.RfTypeValid(t) && EnbSrs.RfTypeValid(t)
    ensures MsSrs.RfTypeValid("soapy") && !RfTypeValid("soapy")
  {
  }

  // ---------------------------------------------------------------------------------------
  // Radio parameters

  /** FFT symbol size for a cell bandwidth in PRBs: a step function of the PRB count up to the
      largest LTE cell of 110 PRB; a wider cell raises. */
  function SymbolSize(numPrb: int): (r: Result<nat>)
    ensures r.Ok? <==> numPrb <= 110
    ensures r.Ok? ==> r.value in {128, 256, 768, 1024, 1536}
  {
    if numPrb <= 6 then Ok(128)
    else if numPrb <= 15 then Ok(256)
    else if numPrb <= 50 then Ok(768)
    else if numPrb <= 75 then Ok(1024)
    else if numPrb <= 110 then Ok(1536)
    else Err("invalid num_prb")
  }

  /** A wider cell never gets a smaller symbol size. */
  lemma SymbolSizeMonotone(a: int, b: int)
    requires a <= b <= 110
    ensures SymbolSize(a).value <= SymbolSize(b).value
  {
  }

  /** The symbol size holds every occupied subcarrier (12 per PRB) of any valid cell. */
  lemma SymbolSizeCoversPrbs(numPrb: int)
    requires 0 <= numPrb <= 110
    ensures 12 * numPrb <= SymbolSize(numPrb).value
  {
  }

  /** Where the two UE tables agree and where they differ: 6, 50, 75 and 100 PRB get the same
      size, 15 and 25 PRB get a smaller one here than srsUE's catch-all 1536. */
  lemma SymbolSizeVersusSrsUe(numPrb: int)
    ensures numPrb == 6 || numPrb == 50 || numPrb == 75 || numPrb == 100 ==>
      SymbolSize(numPrb) == Ok(MsSrs.SymbolSize(numPrb))
    ensures SymbolSize(15) == Ok(256) && MsSrs.SymbolSize(15) == 1536
    ensures SymbolSize(25) == Ok(768) && MsSrs.SymbolSize(25) == 1536
  {
  }

  /** Base sample rate: symbol size times the 15 kHz subcarrier spacing; raises with the
      symbol size. */
  function BaseSrate(numPrb: int): (r: Result<nat>)
    ensures r.Ok? <==> SymbolSize(numPrb).Ok?
  {
    match SymbolSize(numPrb)
    case Err(e) => Err(e)
    case Ok(sz) => Ok(sz * 15 * 1000)
  }

  /** Channel bandwidth in MHz for a cell bandwidth in PRBs; raises above 110 PRB. */
  function Bandwidth(numPrb: int): (r: Result<real>)
    ensures r.Ok? <==> numPrb <= 110
    ensures r.Ok? ==> 1.4 <= r.value <= 20.0
  {
    if numPrb <= 6 then Ok(1.4)
    else if numPrb <= 15 then Ok(3.0)
    else if numPrb <= 25 then Ok(5.0)
    else if numPrb <= 50 then Ok(10.0)
    else if numPrb <= 75 then Ok(15.0)
    else if numPrb <= 110 then Ok(20.0)
    else Err("invalid num_prb")
  }

  /** A wider cell never gets a narrower channel. */
  lemma BandwidthMonotone(a: int, b: int)
    requires a <= b <= 110
    ensures Bandwidth(a).value <= Bandwidth(b).value
  {
  }

  /** The standard LTE cells: 5 PRB per MHz from 3 MHz up, 6 PRB in 1.4 MHz. */
  lemma BandwidthOfStandardCells(numPrb: int)
    ensures numPrb == 15 || numPrb == 25 || numPrb == 50 || numPrb == 75 || numPrb == 100 ==>
      Bandwidth(numPrb) == Ok(numPrb as real / 5.0)
    ensures Bandwidth(6) == Ok(1.4)
  {
  }

  /** The base sample rate of every valid cell is at least its channel bandwidth. */
  lemma SampleRateCoversBandwidth(numPrb: int)
    requires numPrb <= 110
    ensures Bandwidth(numPrb).value * 1000000.0 <= BaseSrate(numPrb).value as real
  {
  }

  // ---------------------------------------------------------------------------------------
  // ZMQ rf_dev_args

  const ZmqSiso := ",rx_freq0=2630e6,tx_freq0=2510e6"
  const ZmqMimo := ",rx_freq0=2630e6,rx_freq1=2630e6" + ",tx_freq0=2510e6,tx_freq1=2510e6"

  /** The frequency part for the eNB's antenna ports: one or two channels of the single
      carrier, nothing for any other port count. */
  function ZmqFreqSuffix(ports: int): (r: string)
    ensures r == "" <==> ports != 1 && ports != 2
  {
    if ports == 1 then ZmqSiso else if ports == 2 then ZmqMimo else ""
  }

  /** The Amarisoft frequencies are srsUE's single-carrier table for one and two ports. */
  lemma ZmqFreqMatchesSrsUe(ports: int)
    requires ports == 1 || ports == 2
    ensures MsSrs.ZmqFreqSuffix(1, ports, 0) == Ok(ZmqFreqSuffix(ports))
  {
    if ports == 1 {
      MsSrs.ZmqSisoSuffix();
    } else {
      MimoFreqArgs();
      assert MsSrs.ZmqFreqPlan(1, 2, 0) == Ok(Some(MsSrs.FreqPlan([2630, 2630], [2510, 2510])));
    }
  }

  /** Two frequencies render as channel 0 then channel 1. */
  lemma FreqArgsPair(name: string, f0: nat, f1: nat)
    ensures MsSrs.FreqArgs(name, [f0, f1]) == MsSrs.FreqArgs(name, [f0]) + "," + name + NatToString(1) + "=" + NatToString(f1) + "e6"
  {
    assert [f0, f1][..1] == [f0];
  }

  lemma RxMimo()
    ensures MsSrs.FreqArgs("rx_freq", [2630, 2630]) == ",rx_freq0=2630e6,rx_freq1=2630e6"
  {
    MsSrs.SisoFreqArgs();
    MsSrs.SisoDigits();
    assert NatToString(1) == "1";  // the second port's index
    FreqArgsPair("rx_freq", 2630, 2630);
  }

  lemma TxMimo()
    ensures MsSrs.FreqArgs("tx_freq", [2510, 2510]) == ",tx_freq0=2510e6,tx_freq1=2510e6"
  {
    MsSrs.SisoFreqArgs();
    MsSrs.SisoDigits();
    assert NatToString(1) == "1";  // the second port's index
    FreqArgsPair("tx_freq", 2510, 2510);
  }

  lemma MimoFreqArgs()
    ensures MsSrs.FreqArgs("rx_freq", [2630, 2630]) + MsSrs.FreqArgs("tx_freq", [2510, 2510]) == ZmqMimo
  {
    RxMimo();
    TxMimo();
  }

  /** The ZMQ `rf_dev_args` of the UE: the eNB's port arguments for this UE, the frequency
      part, then the device id and the base sample rate. */
  function ZmqRfDevArgs(enbArgs: string, ports: int, numPrb: int): (r: Result<string>)
    ensures r.Ok? <==> numPrb <= 110
    ensures r.Ok? ==> StartsWith(r.value, enbArgs) && EndsWith(r.value, MsSrs.ZmqIdTag + NatToString(BaseSrate(numPrb).value))
  {
    match BaseSrate(numPrb)
    case Err(e) => Err(e)
    case Ok(srate) =>
      var tail := MsSrs.ZmqIdTag + NatToString(srate);
      ConcatAffixes(enbArgs + ZmqFreqSuffix(ports), tail);
      ConcatAffixes(enbArgs, ZmqFreqSuffix(ports));
      Ok(enbArgs + ZmqFreqSuffix(ports) + tail)
  }

  /** For one or two ports and the cells both tables size alike, the Amarisoft UE asks for
      the same ZMQ device arguments as a single-carrier srsUE. */
  lemma ZmqSameAsSrsUe(enbArgs: string, ports: int, numPrb: int)
    requires ports == 1 || ports == 2
    requires numPrb == 6 || numPrb == 50 || numPrb == 75 || numPrb == 100
    ensures ZmqRfDevArgs(enbArgs, ports, numPrb) == MsSrs.ZmqRfDevArgs(enbArgs, 1, ports, 0, numPrb)
  {
    ZmqFreqMatchesSrsUe(ports);
    SymbolSizeVersusSrsUe(numPrb);
  }

  // ---------------------------------------------------------------------------------------
  // UHD/B200 rf_dev_args

  /** The frame settings on a B200 by bandwidth: frame sizes up to 25 PRB, 64 frames above
      50 PRB, nothing in between. */
  function B200Frames(numPrb: int): string {
    if numPrb < 25 then MsSrs.Frames512
    else if numPrb == 25 then MsSrs.Frames1024
    else if numPrb > 50 then MsSrs.Frames64
    else ""
  }

  /** The B200 `rf_dev_args` built from the configured arguments: the frame settings, then
      the 12-bit wire format for 15 and 20 MHz cells. */
  function B200Args(args: string, numPrb: int): (r: string)
    ensures StartsWith(r, args)
  {
    var r := MsSrs.WithSeparator(args) + B200Frames(numPrb) + (if numPrb >= 75 then EnbSrs.OtwSc12 else "");
    assert r[..|args|] == MsSrs.WithSeparator(args)[..|args|];
    r
  }

  /** A string whose `k`-th character from the end differs from the suffix's does not end in
      that suffix. */
  lemma NotEndsWith(r: string, t: string, k: int)
    requires 1 <= k <= |t|
    requires |r| < |t| || r[|r| - k] != t[|t| - k]
    ensures !EndsWith(r, t)
  {
    if |r| >= |t| {
      assert r[|r| - |t|..][|t| - k] == r[|r| - k];
    }
  }

  /** Below 75 PRB the argument string ends in a frame setting or a separator, never in the
      12-bit wire format. */
  lemma NoWireFormatBelow75(args: string, numPrb: int)
    requires numPrb < 75
    ensures !EndsWith(B200Args(args, numPrb), EnbSrs.OtwSc12)
  {
    var w, f := MsSrs.WithSeparator(args), B200Frames(numPrb);
    var t := EnbSrs.OtwSc12;
    assert B200Args(args, numPrb) == w + f + "";
    AppendNothing(w + f);
    assert t[|t| - 1] == '2' && t[|t| - 3] == 'c';
    if f == "" {
      AppendNothing(w);
      SeparatorLast(w);
      NotEndsWith(w + f, t, 1);
    } else {
      FramesThirdLast(numPrb);
      ThirdLastOfAppend(w, f);
      NotEndsWith(w + f, t, 3);
    }
  }

  /** A non-empty argument string with its separator ends in a comma. */
  lemma SeparatorLast(w: string)
    requires w != "" ==> EndsWith(w, ",")
    ensures w == "" || w[|w| - 1] == ','
  {
    if w != "" {
      assert w[|w| - 1..][0] == w[|w| - 1];
    }
  }

  /** Every frame setting ends in a number of at least two digits after an `=`, so its
      third character from the end is never the `c` of `sc12`. */
  lemma FramesThirdLast(numPrb: int)
    requires B200Frames(numPrb) != ""
    ensures |B200Frames(numPrb)| >= 3 && B200Frames(numPrb)[|B200Frames(numPrb)| - 3] != 'c'
  {
    var f := B200Frames(numPrb);
    if numPrb < 25 {
      assert f == MsSrs.Frames512 && f[|f| - 3] == '5';
    } else if numPrb == 25 {
      assert f == MsSrs.Frames1024 && f[|f| - 3] == '0';
    } else {
      assert f == MsSrs.Frames64 && f[|f| - 3] == '=';
    }
  }

  /** The third character from the end of a concatenation comes from its second part. */
  lemma ThirdLastOfAppend(w: string, f: string)
    requires |f| >= 3
    ensures (w + f)[|w + f| - 3] == f[|f| - 3]
  {
  }

  /** The 12-bit wire format is requested exactly for cells of 75 PRB and more. */
  lemma B200WireFormat(args: string, numPrb: int)
    ensures EndsWith(B200Args(args, numPrb), EnbSrs.OtwSc12) <==> numPrb >= 75
  {
    if numPrb >= 75 {
      var w, f := MsSrs.WithSeparator(args), B200Frames(numPrb);
      assert B200Args(args, numPrb) == (w + f) + EnbSrs.OtwSc12;
      ConcatAffixes(w + f, EnbSrs.OtwSc12);
    } else {
      NoWireFormatBelow75(args, numPrb);
    }
  }

  /** Above 75 PRB the UE and the MIMO eNB edit a B200 argument string alike. */
  lemma B200AsEnbAbove75(args: string, numPrb: int)
    requires numPrb > 75
    ensures B200Args(args, numPrb) == EnbSrs.EnbB200Args(args, numPrb, 3)
  {
    var w := MsSrs.WithSeparator(args);
    assert EnbSrs.EnbB200Args(args, numPrb, 3) == w + "" + (MsSrs.Frames64 + EnbSrs.OtwSc12);
    assert B200Args(args, numPrb) == w + MsSrs.Frames64 + EnbSrs.OtwSc12;
    AppendNothing(w);
    AppendAssoc(w, MsSrs.Frames64, EnbSrs.OtwSc12);
  }

  /** Between 51 and 74 PRB the MIMO eNB adds the 12-bit wire format and the UE does not. */
  lemma B200UnlikeEnbBelow75(args: string, numPrb: int)
    requires 50 < numPrb < 75
    ensures EnbSrs.EnbB200Args(args, numPrb, 3) == B200Args(args, numPrb) + EnbSrs.OtwSc12
  {
    var w := MsSrs.WithSeparator(args);
    assert EnbSrs.EnbB200Args(args, numPrb, 3) == w + "" + (MsSrs.Frames64 + EnbSrs.OtwSc12);
    assert B200Args(args, numPrb) == w + MsSrs.Frames64 + "";
    AppendNothing(w);
    AppendNothing(w + MsSrs.Frames64);
    AppendAssoc(w, MsSrs.Frames64, EnbSrs.OtwSc12);
  }

  // ---------------------------------------------------------------------------------------
  // Artifact paths

  /** The artifacts of one Amarisoft UE run inside one directory. */
  datatype AmFiles = AmFiles(config: string, configRf: string, log: string, ifup: string)

  function FilesIn(dir: string): AmFiles {
    AmFiles(Child(dir, CfgFile), Child(dir, CfgFileRf), Child(dir, LogFile), Child(dir, IfupFile))
  }

  /** The layout on a remote host: the install directory and the run directory `lteue` under
      the fixed prefix, and the artifacts inside the run directory. */
  datatype RemoteAm = RemoteAm(inst: string, runDir: string, files: AmFiles)

  function RemoteLayout(inst: string): RemoteAm {
    var runDir := Child(RemoteDir, BinFile);
    RemoteAm(Child(RemoteDir, Basename(inst)), runDir, FilesIn(runDir))
  }

  /** The paths written into the configuration: the remote ones exactly when the UE runs on a
      remote host. */
  function ConfigFiles(isLocal: bool, runDir: string, inst: string): AmFiles {
    if isLocal then FilesIn(runDir) else RemoteLayout(inst).files
  }

  /** A remote UE's log and ifup script sit in `/osmo-gsm-tester-amarisoftue/lteue`, under the
      same names as in the local run directory. */
  lemma RemotePaths(runDir: string, inst: string)
    ensures var r := RemoteLayout(inst); var l := FilesIn(runDir); var d := RemoteDir + "/" + BinFile + "/";
      StartsWith(r.files.log, d) && StartsWith(r.files.ifup, d) &&
      Basename(r.files.log) == Basename(l.log) == LogFile &&
      Basename(r.files.ifup) == Basename(l.ifup) == IfupFile &&
      Basename(r.inst) == Basename(inst)
  {
    var d := RemoteDir + "/" + BinFile + "/";
    ConcatAffixes(d, LogFile);
    ConcatAffixes(d, IfupFile);
    BasenameChild(Child(RemoteDir, BinFile), LogFile);
    BasenameChild(runDir, LogFile);
    BasenameChild(Child(RemoteDir, BinFile), IfupFile);
    BasenameChild(runDir, IfupFile);
    BasenameChild(RemoteDir, Basename(inst));
  }

  /** The operations that put the install tree, both configuration files and the ifup script
      on the remote host. */
  function StagingOps(inst: string, files: AmFiles, remote: RemoteAm): seq<RemoteOp> {
    [RecreateDir(remote.inst), ScpTo("scp-inst-to-remote", inst, RemoteDir), RecreateDir(remote.runDir),
     ScpTo("scp-cfg-to-remote", files.config, remote.files.config),
     ScpTo("scp-cfg-rf-to-remote", files.configRf, remote.files.configRf),
     ScpTo("scp-ifup-to-remote", files.ifup, remote.files.ifup)]
  }

  // ---------------------------------------------------------------------------------------
  // Configuration values

  /** What `configure` combines: the Amarisoft defaults, the suite's `amarisoft` and `modem`
      sections, the UE's own resource configuration, its address, where it runs, its run and
      install directories, the eNB's cell and the subscriber's OPc. */
  datatype AmInputs = AmInputs(defaults: Namespace, amarisoftCfg: Namespace, modemCfg: Namespace,
                               conf: Namespace, addr: string, isLocal: bool, runDir: string,
                               inst: string, cell: MsSrs.CellView, opc: Value)

  /** The configurations overlaid in order, each later one winning. */
  function Merged(u: AmInputs): Namespace {
    Overlay(Overlay(Overlay(u.defaults, u.amarisoftCfg), u.modemCfg), u.conf)
  }

  function IdentityPatch(u: AmInputs): Namespace {
    map["addr" := VStr(u.addr), "num_antennas" := VInt(u.cell.numPorts), "opc" := u.opc]
  }

  function PathPatch(f: AmFiles): Namespace {
    map["log_filename" := VStr(f.log), "ifup_filename" := VStr(f.ifup)]
  }

  /** The `ue` namespace once the configurations, the identity and the file names are
      overlaid. */
  function PathAmValues(u: AmInputs): Namespace {
    Overlay(Overlay(Merged(u), IdentityPatch(u)), PathPatch(ConfigFiles(u.isLocal, u.runDir, u.inst)))
  }

  /** `use_custom_band255`, `'false'` when absent, through the string to boolean conversion. */
  function Band255(u: AmInputs, toBool: Value -> bool): bool {
    toBool(Get(PathAmValues(u), "use_custom_band255", VStr("false")))
  }

  /** The `ue` namespace before the radio-specific edits. */
  function BaseAmValues(u: AmInputs, toBool: Value -> bool): Namespace {
    Overlay(PathAmValues(u), map["use_custom_band255" := VBool(Band255(u, toBool))])
  }

  /** The radio-specific keys: sample rate and device arguments for ZMQ; the bandwidth for
      UHD, with the B200 edit when the arguments mention `b200`; nothing otherwise. A cell
      wider than 110 PRB raises for ZMQ and UHD. */
  function RadioPatch(conf: Namespace, v: Namespace, cell: MsSrs.CellView): Result<Namespace> {
    var t := GetStr(conf, "rf_dev_type");
    if t == Some("zmq") then
      match ZmqRfDevArgs(cell.zmqArgsForUe, cell.numPorts, cell.numPrb)
      case Err(e) => Err(e)
      case Ok(a) => Ok(map["sample_rate" := VReal(BaseSrate(cell.numPrb).value as real / 1000000.0),
                           "rf_dev_args" := VStr(a)])
    else if t == Some("uhd") then
      match Bandwidth(cell.numPrb)
      case Err(e) => Err(e)
      case Ok(bw) =>
        var given := GetStr(v, "rf_dev_args");
        if given.Some? && Contains(given.value, "b200") then
          Ok(map["bandwidth" := VReal(bw), "rf_dev_args" := VStr(B200Args(given.value, cell.numPrb))])
        else Ok(map["bandwidth" := VReal(bw)])
    else Ok(map[])
  }

  /** The RF driver settings Amarisoft reads from the `trx` namespace. */
  const TrxKeys: set<string> := {"rf_dev_type", "rf_dev_args", "rf_dev_sync", "rx_gain", "tx_gain"}

  /** The `trx` namespace copied from the finished `ue` namespace. */
  function TrxOf(ue: Namespace): Namespace {
    map["rf_dev_type" := Get(ue, "rf_dev_type", VNone), "rf_dev_args" := Get(ue, "rf_dev_args", VNone),
        "rf_dev_sync" := Get(ue, "rf_dev_sync", VNone), "rx_gain" := Get(ue, "rx_gain", VNone),
        "tx_gain" := Get(ue, "tx_gain", VNone)]
  }

  /** The two namespaces rendered into the UE and RF driver configuration files. */
  datatype Rendered = Rendered(ue: Namespace, trx: Namespace)

  function AmValues(u: AmInputs, toBool: Value -> bool): Result<Rendered> {
    var b := BaseAmValues(u, toBool);
    match RadioPatch(u.conf, b, u.cell)
    case Err(e) => Err(e)
    case Ok(p) => Ok(Rendered(Overlay(b, p), TrxOf(Overlay(b, p))))
  }

  /** The finished `ue` namespace is the base overlaid with the radio patch. */
  lemma AmValuesOk(u: AmInputs, toBool: Value -> bool)
    requires AmValues(u, toBool).Ok?
    ensures RadioPatch(u.conf, BaseAmValues(u, toBool), u.cell).Ok?
    ensures var ue := Overlay(BaseAmValues(u, toBool), RadioPatch(u.conf, BaseAmValues(u, toBool), u.cell).value);
      AmValues(u, toBool).value == Rendered(ue, TrxOf(ue))
  {
  }

  /** The radio patch sets nothing but the sample rate, the device arguments and the
      bandwidth. */
  lemma RadioPatchKeys(conf: Namespace, v: Namespace, cell: MsSrs.CellView)
    requires RadioPatch(conf, v, cell).Ok?
    ensures forall k :: k in RadioPatch(conf, v, cell).value ==> k == "sample_rate" || k == "rf_dev_args" || k == "bandwidth"
  {
  }

  /** The file names the wrapper sets survive into the base namespace. */
  lemma BasePaths(u: AmInputs, toBool: Value -> bool)
    ensures var b := BaseAmValues(u, toBool); var p := PathPatch(ConfigFiles(u.isLocal, u.runDir, u.inst));
      forall k :: k in p ==> k in b && b[k] == p[k]
  {
    var p := PathPatch(ConfigFiles(u.isLocal, u.runDir, u.inst));
    assert "use_custom_band255" !in p;
  }

  /** The two file names of the path patch. */
  lemma PathPatchNames(f: AmFiles)
    ensures "log_filename" in PathPatch(f) && PathPatch(f)["log_filename"] == VStr(f.log)
    ensures "ifup_filename" in PathPatch(f) && PathPatch(f)["ifup_filename"] == VStr(f.ifup)
  {
  }

  /** The band flag and the antenna count the wrapper sets are in the base namespace. */
  lemma BaseIdentity(u: AmInputs, toBool: Value -> bool)
    ensures var b := BaseAmValues(u, toBool);
      "use_custom_band255" in b && b["use_custom_band255"] == VBool(Band255(u, toBool)) &&
      "num_antennas" in b && b["num_antennas"] == VInt(u.cell.numPorts)
  {
    var n := VInt(u.cell.numPorts);
    var band := map["use_custom_band255" := VBool(Band255(u, toBool))];
    OverlayHas(Merged(u), IdentityPatch(u), "num_antennas", n);
    OverlayHas(Overlay(Merged(u), IdentityPatch(u)), PathPatch(ConfigFiles(u.isLocal, u.runDir, u.inst)), "num_antennas", n);
    OverlayHas(PathAmValues(u), band, "num_antennas", n);
    OverlayHas(PathAmValues(u), band, "use_custom_band255", VBool(Band255(u, toBool)));
  }

  /** Every other key of the base is the merged configuration's. */
  lemma BaseKeep(u: AmInputs, toBool: Value -> bool, k: string)
    requires k !in IdentityPatch(u) && k != "log_filename" && k != "ifup_filename" && k != "use_custom_band255"
    ensures Get(BaseAmValues(u, toBool), k, VNone) == Get(Merged(u), k, VNone)
  {
    var withIdentity := Overlay(Merged(u), IdentityPatch(u));
    GetUnpatched(Merged(u), IdentityPatch(u), k, VNone);
    GetUnpatched(withIdentity, PathPatch(ConfigFiles(u.isLocal, u.runDir, u.inst)), k, VNone);
    GetUnpatched(PathAmValues(u), map["use_custom_band255" := VBool(Band255(u, toBool))], k, VNone);
  }

  /** `TrxOf` copies exactly the five driver settings. */
  lemma TrxOfCopies(ue: Namespace)
    ensures TrxOf(ue).Keys == TrxKeys && forall k :: k in TrxOf(ue) ==> TrxOf(ue)[k] == Get(ue, k, VNone)
  {
  }

  /** The `trx` namespace holds exactly the five driver settings, each as the `ue` namespace
      has it after every `rf_dev_args` edit. */
  lemma TrxMirrorsUe(u: AmInputs, toBool: Value -> bool)
    requires AmValues(u, toBool).Ok?
    ensures var r := AmValues(u, toBool).value;
      r.trx.Keys == TrxKeys && forall k :: k in r.trx ==> r.trx[k] == Get(r.ue, k, VNone)
  {
    AmValuesOk(u, toBool);
    TrxOfCopies(AmValues(u, toBool).value.ue);
  }

  /** Configuration fails exactly for a ZMQ or UHD UE on a cell wider than 110 PRB. */
  lemma AmValuesFails(u: AmInputs, toBool: Value -> bool)
    ensures AmValues(u, toBool).Err? <==>
      (GetStr(u.conf, "rf_dev_type") == Some("zmq") || GetStr(u.conf, "rf_dev_type") == Some("uhd")) &&
      u.cell.numPrb > 110
  {
  }

  /** The log and ifup paths in the `ue` namespace are the remote ones exactly when the UE is
      remote; the antenna count and the band flag are the wrapper's. */
  lemma AmValuesPaths(u: AmInputs, toBool: Value -> bool)
    requires AmValues(u, toBool).Ok?
    ensures var v := AmValues(u, toBool).value.ue; var f := ConfigFiles(u.isLocal, u.runDir, u.inst);
      "log_filename" in v && v["log_filename"] == VStr(f.log) &&
      "ifup_filename" in v && v["ifup_filename"] == VStr(f.ifup) &&
      "use_custom_band255" in v && v["use_custom_band255"] == VBool(Band255(u, toBool)) &&
      "num_antennas" in v && v["num_antennas"] == VInt(u.cell.numPorts)
  {
    AmValuesOk(u, toBool);
    RadioPatchKeys(u.conf, BaseAmValues(u, toBool), u.cell);
    BasePaths(u, toBool);
    PathPatchNames(ConfigFiles(u.isLocal, u.runDir, u.inst));
    BaseIdentity(u, toBool);
  }

  /** What the radio patch sets for a ZMQ UE. */
  lemma RadioZmq(conf: Namespace, v: Namespace, cell: MsSrs.CellView)
    requires GetStr(conf, "rf_dev_type") == Some("zmq") && RadioPatch(conf, v, cell).Ok?
    ensures var p := RadioPatch(conf, v, cell).value;
      "rf_dev_args" in p && p["rf_dev_args"] == VStr(ZmqRfDevArgs(cell.zmqArgsForUe, cell.numPorts, cell.numPrb).value) &&
      "sample_rate" in p && p["sample_rate"] == VReal(BaseSrate(cell.numPrb).value as real / 1000000.0)
  {
  }

  /** What the radio patch sets for a UHD UE. */
  lemma RadioUhd(conf: Namespace, v: Namespace, cell: MsSrs.CellView)
    requires GetStr(conf, "rf_dev_type") == Some("uhd") && RadioPatch(conf, v, cell).Ok?
    ensures var p := RadioPatch(conf, v, cell).value; var given := GetStr(v, "rf_dev_args");
      "bandwidth" in p && p["bandwidth"] == VReal(Bandwidth(cell.numPrb).value) &&
      (given.Some? && Contains(given.value, "b200") ==>
         "rf_dev_args" in p && p["rf_dev_args"] == VStr(B200Args(given.value, cell.numPrb))) &&
      (!(given.Some? && Contains(given.value, "b200")) ==> "rf_dev_args" !in p)
  {
  }

  /** The radio keys: for ZMQ the device arguments and the sample rate in MHz; for UHD the
      bandwidth and, for a B200, the edited arguments; the `trx` namespace repeats the final
      device arguments. */
  lemma AmValuesRadio(u: AmInputs, toBool: Value -> bool)
    requires AmValues(u, toBool).Ok?
    ensures var r := AmValues(u, toBool).value; var c := u.cell;
      var given := GetStr(BaseAmValues(u, toBool), "rf_dev_args");
      (GetStr(u.conf, "rf_dev_type") == Some("zmq") ==>
         "rf_dev_args" in r.ue && "sample_rate" in r.ue &&
         r.ue["rf_dev_args"] == VStr(ZmqRfDevArgs(c.zmqArgsForUe, c.numPorts, c.numPrb).value) &&
         r.ue["sample_rate"] == VReal(BaseSrate(c.numPrb).value as real / 1000000.0)) &&
      (GetStr(u.conf, "rf_dev_type") == Some("uhd") ==>
         "bandwidth" in r.ue && r.ue["bandwidth"] == VReal(Bandwidth(c.numPrb).value)) &&
      (GetStr(u.conf, "rf_dev_type") == Some("uhd") && given.Some? && Contains(given.value, "b200") ==>
         "rf_dev_args" in r.ue && r.ue["rf_dev_args"] == VStr(B200Args(given.value, c.numPrb))) &&
      "rf_dev_args" in r.trx && r.trx["rf_dev_args"] == Get(r.ue, "rf_dev_args", VNone)
  {
    var b := BaseAmValues(u, toBool);
    AmValuesOk(u, toBool);
    if GetStr(u.conf, "rf_dev_type") == Some("zmq") {
      RadioZmq(u.conf, b, u.cell);
    }
    if GetStr(u.conf, "rf_dev_type") == Some("uhd") {
      RadioUhd(u.conf, b, u.cell);
    }
    TrxOfCopies(AmValues(u, toBool).value.ue);
  }

  /** Every key the wrapper does not set keeps the merged configuration's value. */
  lemma AmValuesKeep(u: AmInputs, toBool: Value -> bool, k: string)
    requires AmValues(u, toBool).Ok?
    requires k !in IdentityPatch(u) && k != "log_filename" && k != "ifup_filename" && k != "use_custom_band255"
    requires k != "sample_rate" && k != "rf_dev_args" && k != "bandwidth"
    ensures Get(AmValues(u, toBool).value.ue, k, VNone) == Get(Merged(u), k, VNone)
  {
    AmValuesOk(u, toBool);
    RadioPatchKeys(u.conf, BaseAmValues(u, toBool), u.cell);
    BaseKeep(u, toBool, k);
  }

  // ---------------------------------------------------------------------------------------
  // Registration

  /** The line the UE's ifup script prints once `lteue` has attached and brought up the
      interface in its network namespace. */
  const RegisteredMarker := "netns " + NetNs + " configured"

  /** `is_registered` (and so `is_rrc_connected` and `is_attached`): the ifup script's output
      appears in the UE's console output. */
  predicate IsRegistered(stdout: string) {
    Contains(stdout, RegisteredMarker)
  }

  /** The ifup script's `<ue id>: netns amarisoftue1 configured` line registers the UE,
      whatever surrounds it. */
  lemma IfupLineRegisters(before: string, ueId: string, after: string)
    ensures IsRegistered(before + (ueId + ": " + RegisteredMarker) + after)
  {
    var line := ueId + ": " + RegisteredMarker;
    var s := before + line + after;
    InfixOf(before + ueId + ": ", RegisteredMarker, after);
    assert before + ueId + ": " + RegisteredMarker + after == s;
    ContainsAt(s, RegisteredMarker, |before + ueId + ": "|);
  }

  /** Console output only grows, so a registered UE stays registered. */
  lemma RegisteredStays(stdout: string, more: string)
    requires IsRegistered(stdout)
    ensures IsRegistered(stdout + more)
  {
    var i := Find(stdout, RegisteredMarker);
    assert (stdout + more)[i..i + |RegisteredMarker|] == stdout[i..i + |RegisteredMarker|];
    ContainsAt(stdout + more, RegisteredMarker, i);
  }

  /** A UE that has printed nothing is not registered. */
  lemma SilentNotRegistered()
    ensures !IsRegistered("")
  {
    assert !OccursAt("", RegisteredMarker, Find("", RegisteredMarker));
  }

  // ---------------------------------------------------------------------------------------
  // The Amarisoft UE object

  /** What a start needs: the install directory the binary and its libraries live in, the
      configuration file and the process name. */
  datatype StartPlan = StartPlan(inst: string, config: string, name: string)

  /** The preparation before the launch: the RPATH patch of the binary and of the
      arch-optimised `lteue-*` binaries it execs into (capabilities disable
      `LD_LIBRARY_PATH`), then CAP_NET_ADMIN on both for the tunnel device. */
  function StartOps(p: StartPlan): seq<RemoteOp> {
    var binary, variants := Child(p.inst, BinFile), Child(p.inst, "lteue-*");
    [ChangeRpath(binary, p.inst), ChangeRpath(variants, p.inst),
     SetCap(binary, "CAP_NET_ADMIN"), SetCap(variants, "CAP_NET_ADMIN")]
  }

  class AmarisoftUe {
    var runNode: RunNode
    /** The resource configuration the object was created from. */
    var conf: Namespace
    /** The install prefix, looked up once. */
    var binPrefix: Option<string>
    var inst: string
    /** Local artifact paths in the run directory. */
    var files: AmFiles
    /** The remote layout, set by `Configure` for a remote UE. */
    var remote: Option<RemoteAm>
    var process: Option<ProcessHandle>

    /** A remote UE has its remote layout once its process exists. */
    predicate Valid()
      reads this
    {
      process.Some? && !runNode.isLocal ==> remote.Some?
    }

    /** `amarisoftue_<run address>`. */
    function Name(): string
      reads this`runNode
    {
      "amarisoftue_" + runNode.runAddr
    }

    constructor(node: RunNode, resourceConf: Namespace)
      ensures runNode == node && conf == resourceConf
      ensures binPrefix.None? && process.None? && remote.None?
      ensures Valid()
    {
      runNode := node;
      conf := resourceConf;
      binPrefix := None;
      inst := "";
      files := AmFiles("", "", "", "");
      remote := None;
      process := None;
    }

    /** `AmarisoftUE.__init__`'s check: the object is only created for `uhd` or `zmq`. */
    static method Create(node: RunNode, resourceConf: Namespace) returns (r: Result<AmarisoftUe>)
      ensures r.Ok? <==> GetStr(resourceConf, "rf_dev_type").Some? && RfTypeValid(GetStr(resourceConf, "rf_dev_type").value)
      ensures r.Ok? ==> fresh(r.value) && r.value.runNode == node && r.value.conf == resourceConf
      ensures r.Ok? ==> r.value.binPrefix.None? && r.value.process.None? && r.value.Valid()
    {
      var t := GetStr(resourceConf, "rf_dev_type");
      if t.None? || !RfTypeValid(t.value) {
        return Err("Invalid rf_dev_type");
      }
      var ue := new AmarisoftUe(node, resourceConf);
      r := Ok(ue);
    }

    /** `bin_prefix`: the first call takes `AMARISOFT_PATH_UE` from the environment if it is
        set and the trial's `amarisoftue` install otherwise, and caches it; later calls
        return the cached prefix. */
    method BinPrefix(envPath: Option<string>, trialInst: string) returns (p: string)
      modifies this`binPrefix
      ensures old(binPrefix).Some? ==> p == old(binPrefix).value && binPrefix == old(binPrefix)
      ensures old(binPrefix).None? ==> p == envPath.GetOr(trialInst) && binPrefix == Some(p)
      ensures runNode == old(runNode) && conf == old(conf) && process == old(process)
      ensures files == old(files) && remote == old(remote) && inst == old(inst)
    {
      if binPrefix.None? {
        binPrefix := envPath;
        if binPrefix.None? {
          binPrefix := Some(trialInst);
        }
      }
      p := binPrefix.value;
    }

    /** The log copy operation; needs the remote layout. */
    function LogPull(): RemoteOp
      reads this`remote, this`files
      requires remote.Some?
    {
      ScpFrom("scp-back-log", remote.value.files.log, files.log)
    }

    /** `configure`: fixes the install directory through `bin_prefix` and checks the binary,
        fixes the local and (for a remote UE) remote artifact paths, builds the `ue` and `trx`
        namespaces rendered into the two configuration files and, for a remote UE, stages the
        install tree, both configuration files and the ifup script on the remote host. The
        environment variable, the trial's install and whether the binary exists are inputs. */
    method Configure(runDir: string, envPath: Option<string>, trialInst: string, hasBin: bool,
                     defaults: Namespace, amarisoftCfg: Namespace, modemCfg: Namespace,
                     cell: MsSrs.CellView, opc: Value, toBool: Value -> bool, ok: RemoteOp -> bool)
      returns (out: Outcome, rendered: Option<Rendered>, staged: seq<RemoteOp>)
      requires Valid()
      modifies this
      ensures Valid()
      ensures runNode == old(runNode) && conf == old(conf) && process == old(process)
      ensures old(binPrefix).Some? ==> binPrefix == old(binPrefix)
      ensures old(binPrefix).None? ==> binPrefix == Some(envPath.GetOr(trialInst))
      ensures inst == binPrefix.value
      ensures !hasBin ==> out.Fail? && rendered.None? && staged == [] && files == old(files) && remote == old(remote)
      ensures hasBin ==>
        files == FilesIn(runDir) &&
        remote == (if runNode.isLocal then old(remote) else Some(RemoteLayout(inst)))
      ensures hasBin ==>
        var spec := AmValues(AmInputs(defaults, amarisoftCfg, modemCfg, conf, runNode.runAddr, runNode.isLocal,
                                      runDir, inst, cell, opc), toBool);
        (spec.Err? ==> out.Fail? && rendered.None? && staged == []) &&
        (spec.Ok? ==> rendered == Some(spec.value)) &&
        (spec.Ok? && runNode.isLocal ==> out.Pass? && staged == []) &&
        (spec.Ok? && !runNode.isLocal ==>
           staged == Attempted(StagingOps(inst, files, remote.value), ok) &&
           (out.Pass? <==> FirstFailure(StagingOps(inst, files, remote.value), ok) == 6))
    {
      var prefix := BinPrefix(envPath, trialInst);
      inst := prefix;
      if !hasBin {
        return Fail("No " + BinFile + " binary in " + prefix), None, [];
      }
      files := FilesIn(runDir);
      if !runNode.isLocal {
        remote := Some(RemoteLayout(prefix));
      }
      var u := AmInputs(defaults, amarisoftCfg, modemCfg, conf, runNode.runAddr, runNode.isLocal, runDir, prefix, cell, opc);
      var r := ComposeValues(u, toBool);
      if r.Err? {
        return Fail(r.error), None, [];
      }
      rendered := Some(r.value);
      if !runNode.isLocal {
        staged, out := RunRemoteOps(StagingOps(prefix, files, remote.value), ok);
      } else {
        staged, out := [], Pass;
      }
    }

    /** The value-building part of `configure`, step by step as the source overlays. */
    static method ComposeValues(u: AmInputs, toBool: Value -> bool) returns (r: Result<Rendered>)
      ensures r == AmValues(u, toBool)
    {
      var v := PathAmValues(u);
      var band := toBool(Get(v, "use_custom_band255", VStr("false")));
      v := Overlay(v, map["use_custom_band255" := VBool(band)]);
      assert v == BaseAmValues(u, toBool);
      var patch := RadioEdits(u.conf, v, u.cell);
      if patch.Err? {
        return Err(patch.error);
      }
      v := Overlay(v, patch.value);
      r := Ok(Rendered(v, TrxOf(v)));
    }

    /** The ZMQ and UHD branches of `configure`: the keys they overlay, or the error of a cell
        wider than 110 PRB. */
    static method RadioEdits(resourceConf: Namespace, v: Namespace, cell: MsSrs.CellView) returns (r: Result<Namespace>)
      ensures r == RadioPatch(resourceConf, v, cell)
    {
      var rfDevType := GetStr(resourceConf, "rf_dev_type");
      var patch: Namespace := map[];
      if rfDevType == Some("zmq") {
        var baseSrate := BaseSrate(cell.numPrb);
        if baseSrate.Err? {
          return Err(baseSrate.error);
        }
        var rfDevArgs := cell.zmqArgsForUe;
        if cell.numPorts == 1 {
          rfDevArgs := rfDevArgs + ZmqSiso;
        } else if cell.numPorts == 2 {
          rfDevArgs := rfDevArgs + ZmqMimo;
        }
        rfDevArgs := rfDevArgs + (MsSrs.ZmqIdTag + NatToString(baseSrate.value));
        return Ok(map["sample_rate" := VReal(baseSrate.value as real / 1000000.0), "rf_dev_args" := VStr(rfDevArgs)]);
      }
      if rfDevType == Some("uhd") {
        var bandwidth := Bandwidth(cell.numPrb);
        if bandwidth.Err? {
          return Err(bandwidth.error);
        }
        patch := map["bandwidth" := VReal(bandwidth.value)];
        var given := GetStr(v, "rf_dev_args");
        if given.Some? && Contains(given.value, "b200") {
          var rfDevArgs := given.value;
          rfDevArgs := rfDevArgs + if rfDevArgs != "" && !EndsWith(rfDevArgs, ",") then "," else "";
          assert rfDevArgs == MsSrs.WithSeparator(given.value);
          if cell.numPrb < 25 {
            rfDevArgs := rfDevArgs + MsSrs.Frames512;
          } else if cell.numPrb == 25 {
            rfDevArgs := rfDevArgs + MsSrs.Frames1024;
          } else if cell.numPrb > 50 {
            rfDevArgs := rfDevArgs + MsSrs.Frames64;
          }
          if cell.numPrb >= 75 {
            rfDevArgs := rfDevArgs + EnbSrs.OtwSc12;
          }
          assert rfDevArgs == B200Args(given.value, cell.numPrb);
          patch := patch["rf_dev_args" := VStr(rfDevArgs)];
        }
      }
      r := Ok(patch);
    }

    /** `cleanup`: nothing for a missing process or a local UE; otherwise the log is copied
        back, a failure logged and swallowed. */
    method Cleanup() returns (pulls: seq<RemoteOp>)
      requires Valid()
      ensures process.None? || runNode.isLocal ==> pulls == []
      ensures process.Some? && !runNode.isLocal ==> remote.Some? && pulls == [LogPull()]
    {
      if process.None? || runNode.isLocal {
        return [];
      }
      pulls := [LogPull()];
    }

    /** The install directory, configuration file and process name of a start: the local
        install tree for a local UE (`start_locally`), the remote layout for a remote one
        (`start_remotely`). */
    function Start(): StartPlan
      reads this`runNode, this`inst, this`files, this`remote
      requires runNode.isLocal || remote.Some?
    {
      if runNode.isLocal then StartPlan(inst, files.config, Name())
      else StartPlan(remote.value.inst, remote.value.files.config, BinFile)
    }

    /** `connect`: configures, prepares the binaries and starts `lteue` with its configuration
        file. A failing step raises before the process is launched. */
    method Connect(runDir: string, envPath: Option<string>, trialInst: string, hasBin: bool,
                   defaults: Namespace, amarisoftCfg: Namespace, modemCfg: Namespace,
                   cell: MsSrs.CellView, opc: Value, toBool: Value -> bool, ok: RemoteOp -> bool)
      returns (out: Outcome)
      requires Valid()
      modifies this
      ensures Valid()
      ensures runNode == old(runNode) && conf == old(conf)
      ensures out.Fail? ==> process == old(process)
      ensures out.Pass? <==>
        hasBin &&
        AmValues(AmInputs(defaults, amarisoftCfg, modemCfg, conf, runNode.runAddr, runNode.isLocal, runDir, inst, cell, opc), toBool).Ok? &&
        (runNode.isLocal || remote.Some?) &&
        (!runNode.isLocal ==> FirstFailure(StagingOps(inst, files, remote.value), ok) == 6) &&
        FirstFailure(StartOps(Start()), ok) == 4
      ensures out.Pass? ==> process == Some(Launch(Start().name, [Child(Start().inst, BinFile), Start().config]))
    {
      var configured, _, _ := Configure(runDir, envPath, trialInst, hasBin, defaults, amarisoftCfg, modemCfg, cell, opc, toBool, ok);
      ghost var u := AmInputs(defaults, amarisoftCfg, modemCfg, conf, runNode.runAddr, runNode.isLocal, runDir, inst, cell, opc);
      ghost var staged := (runNode.isLocal || remote.Some?) &&
        (!runNode.isLocal ==> FirstFailure(StagingOps(inst, files, remote.value), ok) == 6);
      if configured.Fail? {
        assert !(hasBin && AmValues(u, toBool).Ok? && staged);
        return configured;
      }
      assert hasBin && AmValues(u, toBool).Ok? && staged;
      out := StartProcess(ok);
    }

    /** `start_locally` / `start_remotely`: prepares the binaries and launches `lteue`. A
        failing preparation step raises before the launch. */
    method StartProcess(ok: RemoteOp -> bool) returns (out: Outcome)
      requires runNode.isLocal || remote.Some?
      modifies this`process
      ensures out.Pass? <==> FirstFailure(StartOps(Start()), ok) == 4
      ensures out.Pass? ==> process == Some(Launch(Start().name, [Child(Start().inst, BinFile), Start().config]))
      ensures out.Fail? ==> process == old(process)
      ensures unchanged(this`runNode, this`conf, this`inst, this`remote)
    {
      var plan := Start();
      var _, prepared := RunRemoteOps(StartOps(plan), ok);
      if prepared.Fail? {
        return prepared;
      }
      process := Some(Launch(plan.name, [Child(plan.inst, BinFile), plan.config]));
      out := Pass;
    }
  }
}

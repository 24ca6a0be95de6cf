/** The srsENB wrapper: artifact paths under a configurable remote prefix, the `enb` namespace
    written into its four configuration files, the B200 `rf_dev_args`, the pre- and post-run
    scripts, the guarded artifact pulls of `cleanup`, the single attached UE, the radio
    emulator lookup and the expected maximum rate. */
module EnbSrs {
  import opened Text
  import opened Base
  import opened Tasks
  import MsSrs

  const RemoteDir := "/osmo-gsm-tester-srsenb"
  const BinFile := "srsenb"
  const CfgFile := "srsenb.conf"
  const CfgFileSib := "srsenb_sib.conf"
  const CfgFileRr := "srsenb_rr.conf"
  const CfgFileRb := "srsenb_rb.conf"
  const LogFile := "srsenb.log"
  const PcapFile := "srsenb_mac.pcap"
  const S1apPcapFile := "srsenb_s1ap.pcap"
  const TracingFile := "srsenb_tracing.log"
  const MetricsFile := "srsenb_metrics.csv"
  const InterceptorFile := "srsenb_minterceptor.log"

  /** The radio front ends srsENB accepts. */
  predicate RfTypeValid(t: string) {
    t == "zmq" || t == "uhd" || t == "soapy" || t == "bladerf" || t == "fapi"
  }

  /** The eNB accepts every front end the UE accepts, and FAPI besides. */
  lemma RfTypesOfEnb(t: string)
    ensures RfTypeValid(t) <==> MsSrs.RfTypeValid(t) || t == "fapi"
  {
  }

  // ---------------------------------------------------------------------------------------
  // UHD/B200 rf_dev_args

  const OtwSc12 := ",otw_format=sc12"

  /** The frame settings srsENB uses on a B200: frame sizes by bandwidth for transmission
      modes 1 and 2, 64 frames for MIMO and the 12-bit wire format above 50 PRB. */
  function EnbB200Frames(numPrb: int, txmode: int): string {
    if txmode <= 2 then
      if numPrb < 25 then MsSrs.Frames512 else if numPrb == 25 then MsSrs.Frames1024 else ""
    else
      MsSrs.Frames64 + if numPrb > 50 then OtwSc12 else ""
  }

  /** The B200 `rf_dev_args` of the eNB built from the configured arguments. */
  function EnbB200Args(args: string, numPrb: int, txmode: int): (r: string)
    ensures StartsWith(r, args)
  {
    var r := MsSrs.WithSeparator(args) + (if numPrb == 75 then MsSrs.MasterClock else "") + EnbB200Frames(numPrb, txmode);
    assert r[..|args|] == MsSrs.WithSeparator(args)[..|args|];
    r
  }

  /** Without MIMO the eNB edits a B200 argument string exactly as a single-antenna UE does. */
  lemma EnbB200MatchesUeSiso(args: string, numPrb: int, txmode: int)
    requires txmode <= 2
    ensures EnbB200Args(args, numPrb, txmode) == MsSrs.UeB200Args(args, numPrb, 1)
  {
  }

  /** With MIMO the 64-frame setting comes last, followed by the 12-bit wire format exactly
      when the cell is wider than 50 PRB. */
  lemma EnbB200Mimo(args: string, numPrb: int, txmode: int)
    requires txmode > 2
    ensures numPrb > 50 ==> EndsWith(EnbB200Args(args, numPrb, txmode), MsSrs.Frames64 + OtwSc12)
    ensures numPrb <= 50 ==> EndsWith(EnbB200Args(args, numPrb, txmode), MsSrs.Frames64)
  {
    var head := MsSrs.WithSeparator(args) + (if numPrb == 75 then MsSrs.MasterClock else "");
    var tail := EnbB200Frames(numPrb, txmode);
    assert EnbB200Args(args, numPrb, txmode) == head + tail;
    assert (head + tail)[|head|..] == tail;
  }

  // ---------------------------------------------------------------------------------------
  // Artifact paths

  /** The artifacts of one srsENB run inside one directory. */
  datatype EnbFiles = EnbFiles(config: string, sib: string, rr: string, rb: string, log: string,
                               pcap: string, s1apPcap: string, metrics: string, tracing: string,
                               interceptor: string)

  function FilesIn(dir: string): EnbFiles {
    EnbFiles(Child(dir, CfgFile), Child(dir, CfgFileSib), Child(dir, CfgFileRr), Child(dir, CfgFileRb),
             Child(dir, LogFile), Child(dir, PcapFile), Child(dir, S1apPcapFile), Child(dir, MetricsFile),
             Child(dir, TracingFile), Child(dir, InterceptorFile))
  }

  /** The layout on a remote host: the prefix, the install directory and the run directory
      under it, and the artifacts inside the run directory. */
  datatype RemoteEnb = RemoteEnb(prefix: string, inst: string, runDir: string, files: EnbFiles)

  /** The remote prefix: a non-empty `remote_dir` of the resource configuration replaces the
      default. */
  function RemotePrefix(conf: Namespace): (p: string)
    ensures p != ""
    ensures p == RemoteDir || GetStr(conf, "remote_dir") == Some(p)
    ensures GetStr(conf, "remote_dir").Some? && GetStr(conf, "remote_dir").value != "" ==>
      p == GetStr(conf, "remote_dir").value
  {
    match GetStr(conf, "remote_dir")
    case Some(d) => if d != "" then d else RemoteDir
    case None => RemoteDir
  }

  function RemoteLayout(prefix: string, inst: string, name: string): RemoteEnb {
    var runDir := Child(prefix, name);
    RemoteEnb(prefix, Child(prefix, Basename(inst)), runDir, FilesIn(runDir))
  }

  /** Everything of the remote layout lives under the prefix: the install tree, and every
      artifact inside the run directory named after the eNB. */
  lemma RemoteUnderPrefix(prefix: string, inst: string, name: string)
    ensures var r := RemoteLayout(prefix, inst, name); var d := Child(prefix, name) + "/";
      StartsWith(r.inst, prefix + "/") && StartsWith(r.runDir, prefix + "/") &&
      StartsWith(r.files.config, d) && StartsWith(r.files.sib, d) && StartsWith(r.files.rr, d) &&
      StartsWith(r.files.rb, d) && StartsWith(r.files.log, d) && StartsWith(r.files.pcap, d) &&
      StartsWith(r.files.s1apPcap, d) && StartsWith(r.files.metrics, d) &&
      StartsWith(r.files.tracing, d) && StartsWith(r.files.interceptor, d)
  {
    var d := Child(prefix, name) + "/";
    ConcatAffixes(prefix + "/", Basename(inst));
    ConcatAffixes(prefix + "/", name);
    ConcatAffixes(d, CfgFile);
    ConcatAffixes(d, CfgFileSib);
    ConcatAffixes(d, CfgFileRr);
    ConcatAffixes(d, CfgFileRb);
    ConcatAffixes(d, LogFile);
    ConcatAffixes(d, PcapFile);
    ConcatAffixes(d, S1apPcapFile);
    ConcatAffixes(d, MetricsFile);
    ConcatAffixes(d, TracingFile);
    ConcatAffixes(d, InterceptorFile);
  }

  /** The paths written into the configuration: the remote ones exactly when the eNB runs on
      a remote host. */
  function ConfigFiles(isLocal: bool, runDir: string, remote: RemoteEnb): EnbFiles {
    if isLocal then FilesIn(runDir) else remote.files
  }

  /** The operations that put the install tree and the four configuration files on the remote
      host. */
  function StagingOps(inst: string, files: EnbFiles, remote: RemoteEnb): seq<RemoteOp> {
    [RecreateDir(remote.inst), ScpTo("scp-inst-to-remote", inst, remote.prefix), RecreateDir(remote.runDir),
     ScpTo("scp-cfg-to-remote", files.config, remote.files.config),
     ScpTo("scp-cfg-sib-to-remote", files.sib, remote.files.sib),
     ScpTo("scp-cfg-rr-to-remote", files.rr, remote.files.rr),
     ScpTo("scp-cfg-rb-to-remote", files.rb, remote.files.rb)]
  }

  // ---------------------------------------------------------------------------------------
  // Configuration values

  /** What `configure` combines: the `enb` namespace built by the eNodeB base class, the
      artifact paths to write into it, the radio type of the resource, the ZMQ arguments the
      base class derives, the cell bandwidth and the transmission mode. */
  datatype EnbInputs = EnbInputs(base: Namespace, paths: EnbFiles, rfDevType: Option<string>,
                                 zmqArgs: string, numPrb: int, txmode: int)

  function PathPatch(f: EnbFiles): Namespace {
    map["metrics_filename" := VStr(f.metrics), "tracing_filename" := VStr(f.tracing),
        "sib_filename" := VStr(f.sib), "rr_filename" := VStr(f.rr), "rb_filename" := VStr(f.rb),
        "log_filename" := VStr(f.log), "pcap_filename" := VStr(f.pcap),
        "s1ap_pcap_filename" := VStr(f.s1apPcap)]
  }

  /** A boolean option of the `enb` namespace: its value, `'false'` when absent, through the
      string to boolean conversion `toBool`. */
  function Flag(v: Namespace, key: string, toBool: Value -> bool): bool {
    toBool(Get(v, key, VStr("false")))
  }

  /** The option replaced by its boolean value. */
  function WithFlag(v: Namespace, key: string, toBool: Value -> bool): Namespace {
    Overlay(v, map[key := VBool(Flag(v, key, toBool))])
  }

  /** The `enb` namespace once the file names are written into it. */
  function PathEnbValues(u: EnbInputs): Namespace {
    Overlay(u.base, PathPatch(u.paths))
  }

  /** The boolean options normalised, each read from the namespace before, and `rf_dev_sync`
      made explicit. */
  function SettingsPatch(v: Namespace, toBool: Value -> bool): Namespace {
    map["enable_pcap" := VBool(Flag(v, "enable_pcap", toBool)),
        "enable_tracing" := VBool(Flag(v, "enable_tracing", toBool)),
        "enable_ul_qam64" := VBool(Flag(v, "enable_ul_qam64", toBool)),
        "enable_dl_awgn" := VBool(Flag(v, "enable_dl_awgn", toBool)),
        "rf_dev_sync" := Get(v, "rf_dev_sync", VNone)]
  }

  function SettingsValues(v: Namespace, toBool: Value -> bool): Namespace {
    Overlay(v, SettingsPatch(v, toBool))
  }

  /** Normalising an option that an earlier patch did not write reads the option as it was
      before that patch. */
  lemma FlagStep(v: Namespace, p: Namespace, key: string, toBool: Value -> bool)
    requires key !in p
    ensures WithFlag(Overlay(v, p), key, toBool) == Overlay(v, p[key := VBool(Flag(v, key, toBool))])
  {
    assert Flag(Overlay(v, p), key, toBool) == Flag(v, key, toBool);
  }

  /** Normalising one option does not change how another reads. */
  lemma FlagRead(v: Namespace, key: string, other: string, toBool: Value -> bool)
    requires key != other
    ensures Flag(WithFlag(v, other, toBool), key, toBool) == Flag(v, key, toBool)
  {
  }

  /** `configure` normalises one option after the other; as each reads a key that none of the
      earlier steps wrote, the steps together are the single overlay above. */
  lemma SettingsStepwise(v: Namespace, toBool: Value -> bool)
    ensures var v4 := WithFlag(WithFlag(WithFlag(WithFlag(v, "enable_pcap", toBool), "enable_tracing", toBool),
                                        "enable_ul_qam64", toBool), "enable_dl_awgn", toBool);
      Overlay(v4, map["rf_dev_sync" := Get(v4, "rf_dev_sync", VNone)]) == SettingsValues(v, toBool)
  {
    var p0: Namespace := map[];
    var p1 := p0["enable_pcap" := VBool(Flag(v, "enable_pcap", toBool))];
    var p2 := p1["enable_tracing" := VBool(Flag(v, "enable_tracing", toBool))];
    var p3 := p2["enable_ul_qam64" := VBool(Flag(v, "enable_ul_qam64", toBool))];
    var p4 := p3["enable_dl_awgn" := VBool(Flag(v, "enable_dl_awgn", toBool))];
    assert Overlay(v, p0) == v;
    FlagStep(v, p0, "enable_pcap", toBool);
    FlagStep(v, p1, "enable_tracing", toBool);
    FlagStep(v, p2, "enable_ul_qam64", toBool);
    FlagStep(v, p3, "enable_dl_awgn", toBool);
    var v4 := Overlay(v, p4);
    assert "rf_dev_sync" !in p4;
    assert Get(v4, "rf_dev_sync", VNone) == Get(v, "rf_dev_sync", VNone);
    SyncStep(v, p4, Get(v, "rf_dev_sync", VNone));
  }

  /** The same for the final, unconditional `rf_dev_sync` step. */
  lemma SyncStep(v: Namespace, p: Namespace, x: Value)
    ensures Overlay(Overlay(v, p), map["rf_dev_sync" := x]) == Overlay(v, p["rf_dev_sync" := x])
  {
  }

  /** The `rf_dev_args` override: the base class's string for ZMQ, the B200 edit for a UHD
      eNB whose arguments mention `b200`, the empty string for FAPI, nothing otherwise. */
  function EnbRfArgs(u: EnbInputs, v: Namespace): Option<string> {
    if u.rfDevType == Some("zmq") then Some(u.zmqArgs)
    else if u.rfDevType == Some("uhd") && GetStr(v, "rf_dev_args").Some? && Contains(GetStr(v, "rf_dev_args").value, "b200") then
      Some(EnbB200Args(GetStr(v, "rf_dev_args").value, u.numPrb, u.txmode))
    else if u.rfDevType == Some("fapi") then Some("")
    else None
  }

  /** The complete `enb` namespace rendered into the four configuration files. */
  function EnbValues(u: EnbInputs, toBool: Value -> bool): Namespace {
    var s := SettingsValues(PathEnbValues(u), toBool);
    match EnbRfArgs(u, s)
    case None => s
    case Some(a) => Overlay(s, map["rf_dev_args" := VStr(a)])
  }

  /** The boolean options the object keeps. */
  datatype EnbFlags = EnbFlags(mallocInterceptor: bool, pcap: bool, tracing: bool, ulQam64: bool)

  /** The options as configured in the namespace built by the base class. */
  function FlagsOf(u: EnbInputs, toBool: Value -> bool): EnbFlags {
    EnbFlags(Flag(u.base, "enable_malloc_interceptor", toBool), Flag(u.base, "enable_pcap", toBool),
             Flag(u.base, "enable_tracing", toBool), Flag(u.base, "enable_ul_qam64", toBool))
  }

  /** The keys `configure` sets itself. */
  predicate PathKey(k: string) {
    k == "metrics_filename" || k == "tracing_filename" || k == "sib_filename" || k == "rr_filename" ||
    k == "rb_filename" || k == "log_filename" || k == "pcap_filename" || k == "s1ap_pcap_filename"
  }

  predicate SettingKey(k: string) {
    k == "enable_pcap" || k == "enable_tracing" || k == "enable_ul_qam64" || k == "enable_dl_awgn" ||
    k == "rf_dev_sync"
  }

  /** Writing the file names leaves every other key alone. */
  lemma PathsKeep(u: EnbInputs, k: string)
    requires !PathKey(k)
    ensures var v := PathEnbValues(u); (k in v <==> k in u.base) && (k in v ==> v[k] == u.base[k])
  {
    assert k !in PathPatch(u.paths);
  }

  /** Normalising the options leaves every other key alone. */
  lemma SettingsKeep(v: Namespace, toBool: Value -> bool, k: string)
    requires !SettingKey(k)
    ensures var s := SettingsValues(v, toBool); (k in s <==> k in v) && (k in s ==> s[k] == v[k])
  {
  }

  /** The options normalised in the namespace are the ones read from it. */
  lemma SettingsValuesFlags(v: Namespace, toBool: Value -> bool)
    ensures var s := SettingsValues(v, toBool);
      "enable_pcap" in s && s["enable_pcap"] == VBool(Flag(v, "enable_pcap", toBool)) &&
      "enable_tracing" in s && s["enable_tracing"] == VBool(Flag(v, "enable_tracing", toBool)) &&
      "enable_ul_qam64" in s && s["enable_ul_qam64"] == VBool(Flag(v, "enable_ul_qam64", toBool)) &&
      "enable_dl_awgn" in s && s["enable_dl_awgn"] == VBool(Flag(v, "enable_dl_awgn", toBool)) &&
      "rf_dev_sync" in s
  {
  }

  /** Apart from the options and `rf_dev_args`, the namespace keeps what the file names left. */
  lemma EnbValuesKeep(u: EnbInputs, toBool: Value -> bool, k: string)
    requires !SettingKey(k) && k != "rf_dev_args"
    ensures var v := EnbValues(u, toBool); var p := PathEnbValues(u);
      (k in v <==> k in p) && (k in v ==> v[k] == p[k])
  {
    SettingsKeep(PathEnbValues(u), toBool, k);
  }

  /** The options and the additional arguments `configure` reads are the ones the base class
      configured: writing the file names and normalising the options do not touch them. */
  lemma ReadFromBase(u: EnbInputs, toBool: Value -> bool)
    ensures var v0 := PathEnbValues(u);
      Flag(v0, "enable_malloc_interceptor", toBool) == Flag(u.base, "enable_malloc_interceptor", toBool) &&
      Flag(v0, "enable_pcap", toBool) == Flag(u.base, "enable_pcap", toBool) &&
      Flag(v0, "enable_tracing", toBool) == Flag(u.base, "enable_tracing", toBool) &&
      Flag(v0, "enable_ul_qam64", toBool) == Flag(u.base, "enable_ul_qam64", toBool) &&
      GetList(SettingsValues(v0, toBool), "additional_args") == GetList(u.base, "additional_args")
  {
    PathsKeep(u, "enable_malloc_interceptor");
    PathsKeep(u, "enable_pcap");
    PathsKeep(u, "enable_tracing");
    PathsKeep(u, "enable_ul_qam64");
    PathsKeep(u, "additional_args");
    SettingsKeep(PathEnbValues(u), toBool, "additional_args");
  }

  /** The file-name keys are none of the keys normalised later. */
  lemma PathKeyNotSetting(k: string)
    requires PathKey(k)
    ensures !SettingKey(k) && k != "rf_dev_args"
  {
  }

  /** All eight file names in the configuration are the chosen paths (`PathPatch` names
      them): the remote ones exactly when the eNB is remote. */
  lemma EnbValuesPaths(u: EnbInputs, toBool: Value -> bool)
    ensures var v := EnbValues(u, toBool);
      forall k :: PathKey(k) ==> k in v && k in PathPatch(u.paths) && v[k] == PathPatch(u.paths)[k]
  {
    var v := EnbValues(u, toBool);
    forall k | PathKey(k)
      ensures k in v && k in PathPatch(u.paths) && v[k] == PathPatch(u.paths)[k]
    {
      PathKeyNotSetting(k);
      EnbValuesKeep(u, toBool, k);
    }
  }

  /** The options written into the configuration are the ones the object keeps. */
  lemma EnbValuesFlags(u: EnbInputs, toBool: Value -> bool)
    ensures var v := EnbValues(u, toBool); var f := FlagsOf(u, toBool);
      "enable_pcap" in v && v["enable_pcap"] == VBool(f.pcap) &&
      "enable_tracing" in v && v["enable_tracing"] == VBool(f.tracing) &&
      "enable_ul_qam64" in v && v["enable_ul_qam64"] == VBool(f.ulQam64) &&
      "rf_dev_sync" in v
  {
    var p := PathEnbValues(u);
    PathsKeep(u, "enable_pcap");
    PathsKeep(u, "enable_tracing");
    PathsKeep(u, "enable_ul_qam64");
    SettingsValuesFlags(p, toBool);
  }

  /** The radio edit: the base class's string for ZMQ, the B200 edit of the configured
      arguments for UHD, the empty string for FAPI; otherwise `rf_dev_args` stays as
      configured. */
  lemma EnbValuesRf(u: EnbInputs, toBool: Value -> bool)
    ensures var v := EnbValues(u, toBool); var a := GetStr(u.base, "rf_dev_args");
      (u.rfDevType == Some("zmq") ==> "rf_dev_args" in v && v["rf_dev_args"] == VStr(u.zmqArgs)) &&
      (u.rfDevType == Some("uhd") && a.Some? && Contains(a.value, "b200") ==>
         "rf_dev_args" in v && v["rf_dev_args"] == VStr(EnbB200Args(a.value, u.numPrb, u.txmode))) &&
      (u.rfDevType == Some("fapi") ==> "rf_dev_args" in v && v["rf_dev_args"] == VStr("")) &&
      (u.rfDevType != Some("zmq") && u.rfDevType != Some("fapi") &&
       !(u.rfDevType == Some("uhd") && a.Some? && Contains(a.value, "b200")) ==>
         Get(v, "rf_dev_args", VNone) == Get(u.base, "rf_dev_args", VNone))
  {
    PathsKeep(u, "rf_dev_args");
    SettingsKeep(PathEnbValues(u), toBool, "rf_dev_args");
  }

  /** Every key `configure` does not set itself keeps the value the base class gave it. */
  lemma EnbValuesFromBase(u: EnbInputs, toBool: Value -> bool, k: string)
    requires !PathKey(k) && !SettingKey(k) && k != "rf_dev_args"
    ensures var v := EnbValues(u, toBool); (k in v <==> k in u.base) && (k in v ==> v[k] == u.base[k])
  {
    EnbValuesKeep(u, toBool, k);
    PathsKeep(u, k);
  }

  // ---------------------------------------------------------------------------------------
  // Launch

  /** What a start launches: the process name, its argument vector and its environment. */
  datatype EnbLaunch = EnbLaunch(name: string, argv: seq<string>, env: map<string, string>)

  /** The message raised when the malloc interceptor library cannot be found. */
  const NoInterceptor := "Could not get the environment variables. Aborting"

  /** `start_locally` / `start_remotely`: a local eNB runs the installed binary under its own
      name with the local configuration file; a remote one runs the staged binary with the
      remote configuration file, and with the malloc interceptor on it preloads the
      interceptor library (`interceptorLib`, empty when the node has none, which raises) and
      sends the standard error stream to the interceptor log. */
  function LaunchOf(isLocal: bool, name: string, inst: string, files: EnbFiles, remote: Option<RemoteEnb>,
                    additionalArgs: seq<string>, mallocInterceptor: bool, interceptorLib: string): (r: Result<EnbLaunch>)
    requires isLocal || remote.Some?
    ensures r.Err? <==> !isLocal && mallocInterceptor && interceptorLib == ""
    ensures r.Ok? ==> |r.value.argv| == 2 + |additionalArgs| + (if !isLocal && mallocInterceptor then 1 else 0)
    ensures r.Ok? ==> r.value.argv[2..2 + |additionalArgs|] == additionalArgs
    ensures r.Ok? ==> r.value.argv[1] == (if isLocal then files.config else remote.value.files.config)
    ensures r.Ok? ==> ("LD_PRELOAD" in r.value.env <==> !isLocal && mallocInterceptor)
    ensures r.Ok? ==> "LD_LIBRARY_PATH" in r.value.env
    ensures r.Ok? && !isLocal && mallocInterceptor ==>
      r.value.argv[|r.value.argv| - 1] == " 2> " + remote.value.files.interceptor
  {
    if isLocal then
      Ok(EnbLaunch(name, [Child(Child(inst, "bin"), BinFile), files.config] + additionalArgs,
                   map["LD_LIBRARY_PATH" := Child(inst, "lib")]))
    else
      var rem := remote.value;
      var argv := [Child(Child(rem.inst, "bin"), BinFile), rem.files.config] + additionalArgs;
      var libPath := map["LD_LIBRARY_PATH" := Child(rem.inst, "lib")];
      if !mallocInterceptor then
        Ok(EnbLaunch(BinFile, argv, libPath))
      else if interceptorLib == "" then
        Err(NoInterceptor)
      else
        Ok(EnbLaunch(BinFile, argv + [" 2> " + rem.files.interceptor], libPath["LD_PRELOAD" := interceptorLib]))
  }

  // ---------------------------------------------------------------------------------------
  // Counters

  /** `get_counter`: only `prach_received` is known, counted by the `RACH:` marker; other
      names raise. How the process counts is not part of this model. */
  function EnbCounter(name: string, countOf: string -> int): (r: Result<int>)
    ensures r.Ok? <==> name == "prach_received"
    ensures r.Ok? ==> r.value == countOf("RACH:")
  {
    if name == "prach_received" then Ok(countOf("RACH:"))
    else Err("counter " + name + " not implemented!")
  }

  // ---------------------------------------------------------------------------------------
  // Radio emulator

  /** One entry of the `cell_list` of the generated configuration: its scalar fields and its
      downlink radio emulator section, if any. */
  datatype CellConf = CellConf(fields: Namespace, dlRfemu: Option<Namespace>)

  /** What `get_rfemu` hands to the radio emulator factory: the emulator type, its section
      and whether the section was linked to this eNB and the cell's id. */
  datatype RfemuRequest = RfemuRequest(kind: Value, cfg: Namespace, linked: bool)

  /** The emulator types that talk back to the eNB. */
  predicate LinkedKind(kind: Value) {
    kind == VStr("srsenb_stdin") || kind == VStr("gnuradio_zmq")
  }

  /** Python list indexing behind the length check `len(cell_list) < cell + 1`: a negative
      index counts from the end, and one beyond the list raises. */
  function CellAt(cellList: Option<seq<CellConf>>, cell: int): (c: Result<CellConf>)
    ensures cellList.None? ==> c.Err?
    ensures cellList.Some? && 0 <= cell < |cellList.value| ==> c == Ok(cellList.value[cell])
    ensures cellList.Some? && cell >= |cellList.value| ==> c.Err?
    ensures cellList.Some? && cell < 0 ==>
      (c.Ok? <==> -cell <= |cellList.value|) &&
      (c.Ok? ==> c.value == cellList.value[|cellList.value| + cell])
  {
    if cellList.None? || |cellList.value| < cell + 1 then Err("cell_list attribute or subitem not found!")
    else if cell < 0 && |cellList.value| + cell < 0 then Err("list index out of range")
    else if cell < 0 then Ok(cellList.value[|cellList.value| + cell])
    else Ok(cellList.value[cell])
  }

  /** `get_rfemu`: the emulator of the cell's downlink. A missing cell list, cell or
      emulator section raises, and so does a section without a `type` or, for the types that
      talk back to the eNB, a cell without a `cell_id`. For those types the section gets the
      cell's id and is linked to this eNB. */
  function RfemuFor(cellList: Option<seq<CellConf>>, cell: int): (r: Result<RfemuRequest>)
    ensures r.Ok? <==>
      (CellAt(cellList, cell).Ok? && CellAt(cellList, cell).value.dlRfemu.Some? &&
       "type" in CellAt(cellList, cell).value.dlRfemu.value &&
       (LinkedKind(CellAt(cellList, cell).value.dlRfemu.value["type"]) ==> "cell_id" in CellAt(cellList, cell).value.fields))
    ensures r.Ok? ==> var c := CellAt(cellList, cell).value; var d := c.dlRfemu.value;
      r.value.kind == d["type"] && (r.value.linked <==> LinkedKind(d["type"])) &&
      (r.value.linked ==> r.value.cfg == d["cell_id" := c.fields["cell_id"]]) &&
      (!r.value.linked ==> r.value.cfg == d)
  {
    match CellAt(cellList, cell)
    case Err(e) => Err(e)
    case Ok(c) =>
      match c.dlRfemu
      case None => Err("rfemu attribute not found in cell_list item!")
      case Some(d) =>
        if "type" !in d then Err("KeyError: 'type'")
        else if !LinkedKind(d["type"]) then Ok(RfemuRequest(d["type"], d, false))
        else if "cell_id" !in c.fields then Err("KeyError: 'cell_id'")
        else Ok(RfemuRequest(d["type"], Overlay(d, map["cell_id" := c.fields["cell_id"]]), true))
  }

  // ---------------------------------------------------------------------------------------
  // Expected maximum rate

  /** A UE as the eNB sees it: the features it declares. */
  datatype UeInfo = UeInfo(features: set<string>)

  /** Maximum single-UE physical rates in bit/s per PRB count, transmission mode 1, MCS 28. */
  const DlRate: map<int, real> :=
    map[6 := 3300000.0, 15 := 11000000.0, 25 := 18000000.0, 50 := 36000000.0, 75 := 55000000.0, 100 := 75000000.0]
  const DlRateQam256: map<int, real> :=
    map[6 := 4400000.0, 15 := 14000000.0, 25 := 24000000.0, 50 := 49000000.0, 75 := 75000000.0, 100 := 98000000.0]
  const UlRate: map<int, real> :=
    map[6 := 1700000.0, 15 := 4700000.0, 25 := 10000000.0, 50 := 23000000.0, 75 := 34000000.0, 100 := 51000000.0]
  const UlRateQam64: map<int, real> :=
    map[6 := 2700000.0, 15 := 6500000.0, 25 := 14000000.0, 50 := 32000000.0, 75 := 34000000.0, 100 := 71000000.0]

  /** The PRB counts the tables know. */
  predicate TabulatedPrb(numPrb: int) {
    numPrb == 6 || numPrb == 15 || numPrb == 25 || numPrb == 50 || numPrb == 75 || numPrb == 100
  }

  /** The table for a direction: 256-QAM downlink rates when the UE declares `dl_qam256`,
      64-QAM uplink rates when the eNB enables them and the UE declares `ul_qam64`. */
  function RateTable(downlink: bool, ue: UeInfo, ulQam64: bool): (t: map<int, real>)
    ensures t.Keys == set n | n in DlRate
  {
    if downlink then (if "dl_qam256" in ue.features then DlRateQam256 else DlRate)
    else (if ulQam64 && "ul_qam64" in ue.features then UlRateQam64 else UlRate)
  }

  /** `ue_max_rate`: the tabulated rate, doubled for downlink MIMO, reduced to 85% on 6 PRB
      from transmission mode 2 on, multiplied by the number of carriers, and reduced to 70%
      for the uplink of four 100 PRB carriers. Raises without a UE or for a PRB count the
      tables do not know. */
  function UeMaxRate(ue: Option<UeInfo>, ulQam64: bool, numPrb: int, txmode: int, downlink: bool,
                     numCarriers: int): (r: Result<real>)
    ensures r.Ok? <==> ue.Some? && TabulatedPrb(numPrb)
  {
    if ue.None? then Err("'NoneType' object has no attribute 'features'")
    else if numPrb !in RateTable(downlink, ue.value, ulQam64) then Err("KeyError")
    else
      var rate := RateTable(downlink, ue.value, ulQam64)[numPrb];
      var mimo := if downlink && txmode > 2 then 2.0 * rate else rate;
      var small := if downlink && txmode >= 2 && numPrb == 6 then mimo * 0.85 else mimo;
      var carriers := small * numCarriers as real;
      Ok(if !downlink && numCarriers == 4 && numPrb == 100 then carriers * 0.7 else carriers)
  }

  /** The rate scales with the number of carriers, with the uplink of four 100 PRB carriers
      reduced to 70%. */
  lemma UeMaxRateCarriers(ue: Option<UeInfo>, ulQam64: bool, numPrb: int, txmode: int, downlink: bool, n: int)
    requires ue.Some? && TabulatedPrb(numPrb)
    ensures UeMaxRate(ue, ulQam64, numPrb, txmode, downlink, n).value ==
      UeMaxRate(ue, ulQam64, numPrb, txmode, downlink, 1).value * n as real *
      (if !downlink && n == 4 && numPrb == 100 then 0.7 else 1.0)
  {
  }

  /** MIMO (transmission mode 3 and above) doubles the downlink rate of transmission mode 2,
      and the uplink rate does not depend on the transmission mode. */
  lemma UeMaxRateMimo(ue: Option<UeInfo>, ulQam64: bool, numPrb: int, txmode: int, n: int)
    requires ue.Some? && TabulatedPrb(numPrb)
    ensures txmode > 2 ==>
      UeMaxRate(ue, ulQam64, numPrb, txmode, true, n).value == 2.0 * UeMaxRate(ue, ulQam64, numPrb, 2, true, n).value
    ensures UeMaxRate(ue, ulQam64, numPrb, txmode, false, n) == UeMaxRate(ue, ulQam64, numPrb, 1, false, n)
  {
  }

  /** Declaring 256-QAM never lowers the expected downlink rate, and 64-QAM never lowers the
      uplink rate, for any non-negative number of carriers. */
  lemma UeMaxRateFeatures(f: set<string>, ulQam64: bool, numPrb: int, txmode: int, downlink: bool, n: nat)
    requires TabulatedPrb(numPrb)
    ensures UeMaxRate(Some(UeInfo(f + {"dl_qam256", "ul_qam64"})), ulQam64, numPrb, txmode, downlink, n).value >=
      UeMaxRate(Some(UeInfo(f - {"dl_qam256", "ul_qam64"})), ulQam64, numPrb, txmode, downlink, n).value
  {
  }

  // ---------------------------------------------------------------------------------------
  // The srsENB object

  class SrsEnb {
    var runNode: RunNode
    /** The resource configuration the object was created from. */
    var conf: Namespace
    /** The object's name, assigned by the eNodeB base class. */
    var name: string
    var inst: string
    /** Local artifact paths in the run directory. */
    var files: EnbFiles
    /** The remote layout, set by `Configure` for a remote eNB. */
    var remote: Option<RemoteEnb>
    /** `enable_pcap`, `enable_ul_qam64`, `enable_tracing` and `enable_malloc_interceptor`. */
    var options: EnbFlags
    var additionalArgs: seq<string>
    /** Cell bandwidth and transmission mode, as the eNodeB base class configured them. */
    var numPrb: int
    var txmode: int
    /** The `cell_list` of the generated configuration; nothing before `Configure`. */
    var cellList: Option<seq<CellConf>>
    var process: Option<ProcessHandle>
    /** The environment the process was launched with. */
    var env: map<string, string>
    var ue: Option<UeInfo>
    var haveMetricsFile: bool

    /** A remote eNB has its remote layout once its process exists. */
    predicate Valid()
      reads this
    {
      process.Some? && !runNode.isLocal ==> remote.Some?
    }

    constructor(node: RunNode, resourceConf: Namespace, objName: string)
      ensures runNode == node && conf == resourceConf && name == objName
      ensures process.None? && remote.None? && ue.None? && cellList.None? && !haveMetricsFile
      ensures options == EnbFlags(false, false, false, false) && additionalArgs == []
      ensures Valid()
    {
      runNode := node;
      conf := resourceConf;
      name := objName;
      inst := "";
      files := FilesIn("");
      remote := None;
      options := EnbFlags(false, false, false, false);
      additionalArgs := [];
      numPrb := 0;
      txmode := 0;
      cellList := None;
      process := None;
      env := map[];
      ue := None;
      haveMetricsFile := false;
    }

    /** `srsENB.__init__`'s check: the object is only created for a valid `rf_dev_type`. */
    static method Create(node: RunNode, resourceConf: Namespace, objName: string) returns (r: Result<SrsEnb>)
      ensures r.Ok? <==> GetStr(resourceConf, "rf_dev_type").Some? && RfTypeValid(GetStr(resourceConf, "rf_dev_type").value)
      ensures r.Ok? ==> fresh(r.value) && r.value.runNode == node && r.value.conf == resourceConf && r.value.name == objName
      ensures r.Ok? ==> r.value.process.None? && r.value.ue.None? && !r.value.haveMetricsFile && r.value.Valid()
    {
      var t := GetStr(resourceConf, "rf_dev_type");
      if t.None? || !RfTypeValid(t.value) {
        return Err("Invalid rf_dev_type");
      }
      var enb := new SrsEnb(node, resourceConf, objName);
      r := Ok(enb);
    }

    function MetricsPull(): RemoteOp
      reads this`remote, this`files
      requires remote.Some?
    {
      ScpFrom("scp-back-metrics", remote.value.files.metrics, files.metrics)
    }

    function LogPull(): RemoteOp
      reads this`remote, this`files
      requires remote.Some?
    {
      ScpFrom("scp-back-log", remote.value.files.log, files.log)
    }

    function PcapPull(): RemoteOp
      reads this`remote, this`files
      requires remote.Some?
    {
      ScpFrom("scp-back-pcap", remote.value.files.pcap, files.pcap)
    }

    function S1apPcapPull(): RemoteOp
      reads this`remote, this`files
      requires remote.Some?
    {
      ScpFrom("scp-back-s1-pcap", remote.value.files.s1apPcap, files.s1apPcap)
    }

    function TracingPull(): RemoteOp
      reads this`remote, this`files
      requires remote.Some?
    {
      ScpFrom("scp-back-tracing", remote.value.files.tracing, files.tracing)
    }

    function InterceptorPull(): RemoteOp
      reads this`remote, this`files
      requires remote.Some?
    {
      ScpFrom("scp-back-interceptor", remote.value.files.interceptor, files.interceptor)
    }

    /** The `rf_dev_args` edits of `configure`, step by step. */
    static method BuildRfDevArgs(u: EnbInputs, v: Namespace) returns (r: Option<string>)
      ensures r == EnbRfArgs(u, v)
    {
      r := None;
      if u.rfDevType == Some("zmq") {
        r := Some(u.zmqArgs);
      }
      var given := GetStr(v, "rf_dev_args");
      if u.rfDevType == Some("uhd") && given.Some? && Contains(given.value, "b200") {
        var rfDevArgs := given.value;
        rfDevArgs := rfDevArgs + if rfDevArgs != "" && !EndsWith(rfDevArgs, ",") then "," else "";
        assert rfDevArgs == MsSrs.WithSeparator(given.value);
        if u.numPrb == 75 {
          rfDevArgs := rfDevArgs + MsSrs.MasterClock;
        }
        ghost var clocked := rfDevArgs;
        assert clocked == MsSrs.WithSeparator(given.value) + (if u.numPrb == 75 then MsSrs.MasterClock else "");
        if u.txmode <= 2 {
          if u.numPrb < 25 {
            rfDevArgs := rfDevArgs + MsSrs.Frames512;
          } else if u.numPrb == 25 {
            rfDevArgs := rfDevArgs + MsSrs.Frames1024;
          } else {
            rfDevArgs := rfDevArgs + "";
          }
        } else {
          rfDevArgs := rfDevArgs + MsSrs.Frames64;
          if u.numPrb > 50 {
            rfDevArgs := rfDevArgs + OtwSc12;
          }
        }
        assert rfDevArgs == clocked + EnbB200Frames(u.numPrb, u.txmode);
        assert rfDevArgs == EnbB200Args(given.value, u.numPrb, u.txmode);
        r := Some(rfDevArgs);
      }
      if u.rfDevType == Some("fapi") {
        r := Some("");
      }
    }

    /** The option normalisation of `configure`, one option after the other, returning the
        options read on the way. */
    static method NormaliseSettings(v0: Namespace, toBool: Value -> bool)
      returns (v: Namespace, pcap: bool, tracing: bool, ulQam64: bool)
      ensures v == SettingsValues(v0, toBool)
      ensures pcap == Flag(v0, "enable_pcap", toBool) && tracing == Flag(v0, "enable_tracing", toBool)
      ensures ulQam64 == Flag(v0, "enable_ul_qam64", toBool)
    {
      v := v0;
      pcap := Flag(v, "enable_pcap", toBool);
      v := WithFlag(v, "enable_pcap", toBool);
      tracing := Flag(v, "enable_tracing", toBool);
      FlagRead(v0, "enable_tracing", "enable_pcap", toBool);
      v := WithFlag(v, "enable_tracing", toBool);
      ulQam64 := Flag(v, "enable_ul_qam64", toBool);
      FlagRead(v0, "enable_ul_qam64", "enable_pcap", toBool);
      FlagRead(WithFlag(v0, "enable_pcap", toBool), "enable_ul_qam64", "enable_tracing", toBool);
      v := WithFlag(v, "enable_ul_qam64", toBool);
      v := WithFlag(v, "enable_dl_awgn", toBool);
      v := Overlay(v, map["rf_dev_sync" := Get(v, "rf_dev_sync", VNone)]);
      SettingsStepwise(v0, toBool);
    }

    /** The value-building part of `configure`: the `enb` namespace rendered into the
        configuration files, the options the object keeps and the split additional
        arguments. */
    static method ComposeValues(u: EnbInputs, toBool: Value -> bool)
      returns (v: Namespace, flags: EnbFlags, args: seq<string>)
      ensures v == EnbValues(u, toBool) && flags == FlagsOf(u, toBool)
      ensures args == MsSrs.WordsOfAll(GetList(u.base, "additional_args"))
    {
      var v0 := PathEnbValues(u);
      var malloc := Flag(v0, "enable_malloc_interceptor", toBool);
      var pcap, tracing, ulQam64;
      v, pcap, tracing, ulQam64 := NormaliseSettings(v0, toBool);
      args := MsSrs.SrsUe.SplitAdditionalArgs(GetList(v, "additional_args"));
      ReadFromBase(u, toBool);
      flags := EnbFlags(malloc, pcap, tracing, ulQam64);
      var rf := BuildRfDevArgs(u, v);
      if rf.Some? {
        v := Overlay(v, map["rf_dev_args" := VStr(rf.value)]);
      }
    }
  
    /** `configure`: checks the install tree, fixes the local and (for a remote eNB) remote
        artifact paths under the configured prefix, builds the `enb` namespace that is
        rendered into the four configuration files, keeps the options, the additional
        arguments and the cell list, and for a remote eNB stages the install tree and the
        configuration files on the remote host. The namespace built by the eNodeB base class,
        its cell bandwidth, transmission mode and ZMQ arguments are inputs. */
    method Configure(runDir: string, instDir: string, hasLib: bool, hasBin: bool, base: Namespace,
                     cells: Option<seq<CellConf>>, cellPrb: int, cellTxmode: int, zmqArgs: string,
                     toBool: Value -> bool, ok: RemoteOp -> bool)
      returns (out: Outcome, rendered: Option<Namespace>, staged: seq<RemoteOp>)
      requires Valid()
      modifies this
      ensures Valid()
      ensures runNode == old(runNode) && conf == old(conf) && name == old(name) && process == old(process)
      ensures env == old(env) && ue == old(ue) && haveMetricsFile == old(haveMetricsFile) && inst == instDir
      ensures !(hasLib && hasBin) ==>
        out.Fail? && rendered.None? && staged == [] && files == old(files) && remote == old(remote) &&
        options == old(options) &&
        additionalArgs == old(additionalArgs) && cellList == old(cellList)
      ensures hasLib && hasBin ==>
        files == FilesIn(runDir) &&
        remote == (if runNode.isLocal then old(remote) else Some(RemoteLayout(RemotePrefix(conf), instDir, name)))
      ensures hasLib && hasBin ==>
        var u := EnbInputs(base, ConfigFiles(runNode.isLocal, runDir, RemoteLayout(RemotePrefix(conf), instDir, name)),
                           GetStr(conf, "rf_dev_type"), zmqArgs, cellPrb, cellTxmode);
        rendered == Some(EnbValues(u, toBool)) &&
        options == FlagsOf(u, toBool) &&
        additionalArgs == MsSrs.WordsOfAll(GetList(base, "additional_args")) &&
        numPrb == cellPrb && txmode == cellTxmode && cellList == cells
      ensures hasLib && hasBin && runNode.isLocal ==> out.Pass? && staged == []
      ensures hasLib && hasBin && !runNode.isLocal ==>
        staged == Attempted(StagingOps(instDir, files, remote.value), ok) &&
        (out.Pass? <==> FirstFailure(StagingOps(instDir, files, remote.value), ok) == 7)
    {
      inst := instDir;
      if !hasLib {
        return Fail("No lib/ in " + instDir), None, [];
      }
      if !hasBin {
        return Fail("No " + BinFile + " binary in " + instDir), None, [];
      }
      var layout := RemoteLayout(RemotePrefix(conf), instDir, name);
      var u := EnbInputs(base, ConfigFiles(runNode.isLocal, runDir, layout), GetStr(conf, "rf_dev_type"),
                         zmqArgs, cellPrb, cellTxmode);
      var v, flags, args := ComposeValues(u, toBool);
      Record(FilesIn(runDir), if runNode.isLocal then remote else Some(layout), flags, args, cellPrb, cellTxmode, cells);
      rendered := Some(v);
      if !runNode.isLocal {
        staged, out := RunRemoteOps(StagingOps(instDir, files, remote.value), ok);
      } else {
        staged, out := [], Pass;
      }
    }

    /** The fields `configure` leaves alone. */
    ghost function Identity(): (RunNode, Namespace, string, string, Option<ProcessHandle>, map<string, string>, Option<UeInfo>, bool)
      reads this
    {
      (runNode, conf, name, inst, process, env, ue, haveMetricsFile)
    }

    /** Records the paths and settings `configure` computes. */
    method Record(f: EnbFiles, r: Option<RemoteEnb>, flags: EnbFlags, args: seq<string>, prb: int, tx: int,
                  cells: Option<seq<CellConf>>)
      modifies this
      ensures files == f && remote == r && additionalArgs == args && numPrb == prb && txmode == tx && cellList == cells
      ensures options == flags
      ensures Identity() == old(Identity())
    {
      files, remote, options, additionalArgs, numPrb, txmode, cellList := f, r, flags, args, prb, tx, cells;
    }

    /** `scp_back_metrics`: at most once per object. A running process is stopped first, a
        remote eNB copies the metrics file back, and the flag is set unless the copy failed and
        the caller asked for the failure to be raised. Without a process the call raises. */
    method ScpBackMetrics(raiseOnFailure: bool, ok: RemoteOp -> bool) returns (out: Outcome, copied: seq<RemoteOp>)
      requires Valid()
      modifies this`process, this`haveMetricsFile
      ensures Valid()
      ensures old(haveMetricsFile) ==> out.Pass? && copied == [] && process == old(process) && haveMetricsFile
      ensures !old(haveMetricsFile) && old(process).None? ==> out.Fail? && copied == [] && process.None? && !haveMetricsFile
      ensures !old(haveMetricsFile) && old(process).Some? ==>
        process == Some(Stopped(old(process).value)) &&
        copied == (if runNode.isLocal then [] else [MetricsPull()]) &&
        (out.Fail? <==> raiseOnFailure && !runNode.isLocal && !ok(MetricsPull())) &&
        haveMetricsFile == out.Pass?
    {
      copied := [];
      if haveMetricsFile {
        return Pass, [];
      }
      if process.None? {
        return Fail("'NoneType' object has no attribute 'terminated'"), [];
      }
      if !process.value.terminated {
        process := Some(Stopped(process.value));
      }
      if !runNode.isLocal {
        var op := MetricsPull();
        copied := [op];
        out := Pull(op, ok, raiseOnFailure);
        if out.Fail? {
          return;
        }
      }
      haveMetricsFile := true;
      out := Pass;
    }

    /** `cleanup`: nothing for a missing process or a local eNB. Otherwise the post-run
        scripts run first, and a failing one raises out of `cleanup`; then the metrics pull
        that never raises, the log pull, both pcap pulls when pcap capture is on, the tracing
        pull when tracing is on and the interceptor log pull when the malloc interceptor is
        on. Every pull failure is logged and swallowed. */
    method Cleanup(ok: RemoteOp -> bool, exitOf: seq<string> -> int) returns (out: Outcome, pulls: seq<RemoteOp>)
      requires Valid()
      modifies this`process, this`haveMetricsFile
      ensures Valid()
      ensures old(process).None? || runNode.isLocal ==>
        out.Pass? && pulls == [] && process == old(process) && haveMetricsFile == old(haveMetricsFile)
      ensures old(process).Some? && !runNode.isLocal ==>
        (out.Pass? <==> forall k :: 0 <= k < |GetList(conf, "postrun_scripts")| ==>
                          Passes(exitOf)(GetList(conf, "postrun_scripts")[k])) &&
        (out.Fail? ==> pulls == [] && process == old(process) && haveMetricsFile == old(haveMetricsFile)) &&
        (out.Pass? ==>
           remote.Some? && haveMetricsFile &&
           process == (if old(haveMetricsFile) then old(process) else Some(Stopped(old(process).value))) &&
           pulls == (if old(haveMetricsFile) then [] else [MetricsPull()]) + [LogPull()]
                    + (if options.pcap then [PcapPull(), S1apPcapPull()] else [])
                    + (if options.tracing then [TracingPull()] else [])
                    + (if options.mallocInterceptor then [InterceptorPull()] else []))
    {
      if process.None? || runNode.isLocal {
        return Pass, [];
      }
      var _, res := RunTasks(Some(GetList(conf, "postrun_scripts")), exitOf);
      if res.Err? {
        return Fail(res.error), [];
      }
      var _, copied := ScpBackMetrics(false, ok);
      pulls := copied + [LogPull()];
      if options.pcap {
        pulls := pulls + [PcapPull(), S1apPcapPull()];
      }
      if options.tracing {
        pulls := pulls + [TracingPull()];
      }
      if options.mallocInterceptor {
        pulls := pulls + [InterceptorPull()];
      }
      out := Pass;
    }

    /** What a start of this eNB launches. */
    function LaunchPlan(interceptorLib: string): Result<EnbLaunch>
      reads this`runNode, this`name, this`inst, this`files, this`remote, this`additionalArgs, this`options
      requires runNode.isLocal || remote.Some?
    {
      LaunchOf(runNode.isLocal, name, inst, files, remote, additionalArgs, options.mallocInterceptor, interceptorLib)
    }

    /** `start`: configures, runs the pre-run scripts and launches srsENB. A failing step
        raises before the process is launched. */
    method Start(runDir: string, instDir: string, hasLib: bool, hasBin: bool, base: Namespace,
                 cells: Option<seq<CellConf>>, cellPrb: int, cellTxmode: int, zmqArgs: string,
                 toBool: Value -> bool, ok: RemoteOp -> bool, exitOf: seq<string> -> int, interceptorLib: string)
      returns (out: Outcome)
      requires Valid()
      modifies this
      ensures Valid()
      ensures runNode == old(runNode) && conf == old(conf)
      ensures out.Fail? ==> process == old(process)
      ensures out.Pass? <==>
        hasLib && hasBin &&
        (forall k :: 0 <= k < |GetList(conf, "prerun_scripts")| ==> Passes(exitOf)(GetList(conf, "prerun_scripts")[k])) &&
        (runNode.isLocal || remote.Some?) &&
        (!runNode.isLocal ==> FirstFailure(StagingOps(instDir, files, remote.value), ok) == 7) &&
        LaunchPlan(interceptorLib).Ok?
      ensures out.Pass? ==>
        process == Some(Launch(LaunchPlan(interceptorLib).value.name, LaunchPlan(interceptorLib).value.argv)) &&
        env == LaunchPlan(interceptorLib).value.env
    {
      var configured, _, _ := Configure(runDir, instDir, hasLib, hasBin, base, cells, cellPrb, cellTxmode, zmqArgs, toBool, ok);
      ghost var staged := (runNode.isLocal || remote.Some?) &&
        (!runNode.isLocal ==> FirstFailure(StagingOps(instDir, files, remote.value), ok) == 7);
      if configured.Fail? {
        assert !(hasLib && hasBin && staged);
        return configured;
      }
      assert hasLib && hasBin && staged;
      out := PrerunAndLaunch(exitOf, interceptorLib);
    }

    /** The rest of `start` once configured: the pre-run scripts, then the launch. */
    method PrerunAndLaunch(exitOf: seq<string> -> int, interceptorLib: string) returns (out: Outcome)
      requires runNode.isLocal || remote.Some?
      modifies this`process, this`env
      ensures out.Pass? <==>
        (forall k :: 0 <= k < |GetList(conf, "prerun_scripts")| ==> Passes(exitOf)(GetList(conf, "prerun_scripts")[k])) &&
        LaunchPlan(interceptorLib).Ok?
      ensures out.Pass? ==>
        process == Some(Launch(LaunchPlan(interceptorLib).value.name, LaunchPlan(interceptorLib).value.argv)) &&
        env == LaunchPlan(interceptorLib).value.env
      ensures out.Fail? ==> process == old(process)
    {
      var _, res := RunTasks(Some(GetList(conf, "prerun_scripts")), exitOf);
      if res.Err? {
        return Fail(res.error);
      }
      out := LaunchProcess(interceptorLib);
    }

    /** `start_locally` / `start_remotely`. */
    method LaunchProcess(interceptorLib: string) returns (out: Outcome)
      requires runNode.isLocal || remote.Some?
      modifies this`process, this`env
      ensures out.Pass? <==> LaunchPlan(interceptorLib).Ok?
      ensures out.Pass? ==>
        process == Some(Launch(LaunchPlan(interceptorLib).value.name, LaunchPlan(interceptorLib).value.argv)) &&
        env == LaunchPlan(interceptorLib).value.env
      ensures out.Fail? ==> process == old(process)
    {
      var plan := LaunchPlan(interceptorLib);
      if plan.Err? {
        return Fail(plan.error);
      }
      process, env := Some(Launch(plan.value.name, plan.value.argv)), plan.value.env;
      out := Pass;
    }

    /** `ue_add`: one UE per eNB; a second one raises and the first stays. */
    method UeAdd(u: UeInfo) returns (out: Outcome)
      modifies this`ue
      ensures old(ue).Some? ==> out.Fail? && ue == old(ue)
      ensures old(ue).None? ==> out.Pass? && ue == Some(u)
    {
      if ue.Some? {
        return Fail("More than one UE per ENB not yet supported (ZeroMQ)");
      }
      ue := Some(u);
      out := Pass;
    }

    /** `ue_max_rate` for the attached UE and this eNB's cell. */
    function MaxRate(downlink: bool, numCarriers: int): Result<real>
      reads this`ue, this`options, this`numPrb, this`txmode
    {
      UeMaxRate(ue, options.ulQam64, numPrb, txmode, downlink, numCarriers)
    }
  }
}

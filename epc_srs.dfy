/** The srsEPC wrapper: its subscriber list, the artifact paths and values of its
    configuration, its start, its cleanup and the S1 Setup observer. */
module EpcSrs {
  import opened Text
  import opened Base

  const RemoteDir := "/osmo-gsm-tester-srsepc"
  const BinFile := "srsepc"
  const CfgFile := "srsepc.conf"
  const DbFile := "srsepc_user_db.csv"
  const PcapFile := "srsepc.pcap"
  const LogFile := "srsepc.log"
  /** The authentication algorithm name meaning "no authentication". */
  const AlgoNone := "none"

  // ---------------------------------------------------------------------------------------
  // Subscribers

  /** What the EPC asks of a modem when adding it as a subscriber; `None` where the modem has
      no such setting. */
  datatype Modem = Modem(imsi: string, msisdn: string, authAlgo: Option<string>, ki: Option<string>,
                         opc: Option<string>, apnIpaddr: Option<string>)

  /** Python truthiness of an optional string. */
  predicate Truthy(s: Option<string>) {
    s.Some? && s.value != ""
  }

  /** One row of the HSS subscriber list. `apnIpaddr` is `None` for a row without that key;
      `qci` is set by `configure`. */
  datatype Subscriber = Subscriber(id: nat, imsi: string, msisdn: string, authAlgo: string, ki: Option<string>,
                                   opc: Option<string>, apnIpaddr: Option<string>, qci: Option<Value>)

  /** The algorithm asked for: the explicit one, else the modem's, else none. */
  function RequestedAlgo(modem: Modem, algo: Option<string>): string {
    algo.GetOr(if Truthy(modem.authAlgo) then modem.authAlgo.value else AlgoNone)
  }

  /** The row `subscriber_add` appends under the given id: an algorithm other than `none` needs
      a KI, `milenage` also an OPC and is stored as `mil`; a missing OPC is stored as empty. */
  function NewSubscriber(modem: Modem, msisdn: Option<string>, algo: Option<string>, id: nat): (r: Result<Subscriber>)
    ensures r.Err? <==> (RequestedAlgo(modem, algo) != AlgoNone && !Truthy(modem.ki)) ||
                        (RequestedAlgo(modem, algo) == "milenage" && !Truthy(modem.opc))
    ensures r.Ok? ==> r.value.id == id && r.value.imsi == modem.imsi && r.value.qci.None? &&
                      r.value.msisdn == msisdn.GetOr(modem.msisdn) && r.value.ki == modem.ki &&
                      r.value.opc.Some? && r.value.apnIpaddr == modem.apnIpaddr
    ensures r.Ok? ==> r.value.authAlgo != "milenage"
  {
    var a := RequestedAlgo(modem, algo);
    if a != AlgoNone && !Truthy(modem.ki) then Err("Auth algo " + a + " selected but no KI specified")
    else if a == "milenage" && !Truthy(modem.opc) then Err("Auth algo milenage selected but no OPC specified")
    else
      Ok(Subscriber(id, modem.imsi, msisdn.GetOr(modem.msisdn), if a == "milenage" then "mil" else a,
                    modem.ki, Some(modem.opc.GetOr("")), modem.apnIpaddr, None))
  }

  /** A milenage subscriber is stored with the token `mil` and a non-empty OPC; every other
      accepted algorithm is stored as requested, with the modem's OPC or an empty one. */
  lemma NewSubscriberAuth(modem: Modem, msisdn: Option<string>, algo: Option<string>, id: nat)
    requires NewSubscriber(modem, msisdn, algo, id).Ok?
    ensures var s := NewSubscriber(modem, msisdn, algo, id).value;
      (RequestedAlgo(modem, algo) == "milenage" ==> s.authAlgo == "mil" && s.opc.value != "") &&
      (RequestedAlgo(modem, algo) != "milenage" ==> s.authAlgo == RequestedAlgo(modem, algo)) &&
      (s.authAlgo != AlgoNone ==> Truthy(modem.ki)) &&
      s.opc == Some(if Truthy(modem.opc) then modem.opc.value else "")
  {
  }

  /** Every subscriber's id is its index in the list. */
  predicate IdsAreIndices(subs: seq<Subscriber>) {
    forall i :: 0 <= i < |subs| ==> subs[i].id == i
  }

  /** The list after `configure`'s loop: every row with the given `qci`, nothing else changed. */
  function WithQci(subs: seq<Subscriber>, qci: Value): (r: seq<Subscriber>)
    ensures |r| == |subs|
    ensures forall i :: 0 <= i < |subs| ==> r[i].qci == Some(qci)
  {
    seq(|subs|, i requires 0 <= i < |subs| => subs[i].(qci := Some(qci)))
  }

  /** Setting the `qci` keeps every other field of every row, so ids stay indices, and setting
      it again with the same value changes nothing. */
  lemma WithQciKeeps(subs: seq<Subscriber>, qci: Value)
    ensures forall i :: 0 <= i < |subs| ==> WithQci(subs, qci)[i].(qci := subs[i].qci) == subs[i]
    ensures IdsAreIndices(subs) ==> IdsAreIndices(WithQci(subs, qci))
    ensures WithQci(WithQci(subs, qci), qci) == WithQci(subs, qci)
  {
  }

  /** Sets the `qci` of each row in place, index by index. */
  method SetQci(subs: seq<Subscriber>, qci: Value) returns (r: seq<Subscriber>)
    ensures r == WithQci(subs, qci)
  {
    r := subs;
    var i := 0;
    while i < |r|
      invariant 0 <= i <= |r| == |subs|
      invariant forall j :: 0 <= j < i ==> r[j] == subs[j].(qci := Some(qci))
      invariant forall j :: i <= j < |r| ==> r[j] == subs[j]
    {
      r := r[i := r[i].(qci := Some(qci))];
      i := i + 1;
    }
  }

  // ---------------------------------------------------------------------------------------
  // Artifact paths and configuration values

  /** The artifacts of one srsEPC run inside one directory. */
  datatype EpcFiles = EpcFiles(config: string, db: string, log: string, pcap: string)

  function FilesIn(dir: string): EpcFiles {
    EpcFiles(Child(dir, CfgFile), Child(dir, DbFile), Child(dir, LogFile), Child(dir, PcapFile))
  }

  /** The layout on a remote host: the install directory and the run directory `srsepc` under
      the fixed prefix, and the artifacts inside the run directory. */
  datatype RemoteEpc = RemoteEpc(inst: string, runDir: string, files: EpcFiles)

  function RemoteLayout(inst: string): RemoteEpc {
    var runDir := Child(RemoteDir, BinFile);
    RemoteEpc(Child(RemoteDir, Basename(inst)), runDir, FilesIn(runDir))
  }

  /** The paths written into the configuration: the remote ones exactly when the EPC runs on
      a remote host. */
  function ConfigFiles(isLocal: bool, runDir: string, inst: string): EpcFiles {
    if isLocal then FilesIn(runDir) else RemoteLayout(inst).files
  }

  /** A remote EPC's database, log and pcap sit in `/osmo-gsm-tester-srsepc/srsepc` under the
      names they have in the local run directory; the remote install keeps its base name. */
  lemma RemotePaths(runDir: string, inst: string)
    ensures var r := RemoteLayout(inst); var l := FilesIn(runDir); var d := RemoteDir + "/" + BinFile + "/";
      StartsWith(r.files.db, d) && StartsWith(r.files.log, d) && StartsWith(r.files.pcap, d) &&
      Basename(r.files.db) == Basename(l.db) == DbFile &&
      Basename(r.files.log) == Basename(l.log) == LogFile &&
      Basename(r.files.pcap) == Basename(l.pcap) == PcapFile &&
      Basename(r.inst) == Basename(inst)
  {
    var d := RemoteDir + "/" + BinFile + "/";
    var rd := Child(RemoteDir, BinFile);
    ConcatAffixes(d, DbFile);
    ConcatAffixes(d, LogFile);
    ConcatAffixes(d, PcapFile);
    BasenameChild(rd, DbFile);
    BasenameChild(runDir, DbFile);
    BasenameChild(rd, LogFile);
    BasenameChild(runDir, LogFile);
    BasenameChild(rd, PcapFile);
    BasenameChild(runDir, PcapFile);
    BasenameChild(RemoteDir, Basename(inst));
  }

  /** The three file names overlaid into the `epc` namespace. */
  function PathPatch(f: EpcFiles): Namespace {
    map["db_filename" := VStr(f.db), "log_filename" := VStr(f.log), "pcap_filename" := VStr(f.pcap)]
  }

  /** The `epc` namespace after the path and `enable_pcap` overlays; `base` is what the EPC
      base class's `configure` produced. */
  function EpcValues(base: Namespace, isLocal: bool, runDir: string, inst: string, toBool: Value -> bool): Namespace {
    var v := Overlay(base, PathPatch(ConfigFiles(isLocal, runDir, inst)));
    Overlay(v, map["enable_pcap" := VBool(toBool(Get(v, "enable_pcap", VStr("false"))))])
  }

  /** The keys `configure` overlays into the `epc` namespace. */
  const OverlaidKeys: set<string> := {"db_filename", "log_filename", "pcap_filename", "enable_pcap"}

  /** The path patch sets its three names and not `enable_pcap`. */
  lemma PathPatchNames(f: EpcFiles)
    ensures var p := PathPatch(f);
      p.Keys + {"enable_pcap"} == OverlaidKeys && "enable_pcap" !in p &&
      p["db_filename"] == VStr(f.db) && p["log_filename"] == VStr(f.log) && p["pcap_filename"] == VStr(f.pcap)
  {
    assert "enable_pcap"[0] == 'e';
    assert "db_filename"[0] == 'd' && "log_filename"[0] == 'l' && "pcap_filename"[0] == 'p';
  }

  /** The database, log and pcap names in the configuration are the remote paths exactly when
      the node is remote; `enable_pcap` becomes a boolean; every other key is the base's. */
  lemma EpcValuesPaths(base: Namespace, isLocal: bool, runDir: string, inst: string, toBool: Value -> bool)
    ensures var v := EpcValues(base, isLocal, runDir, inst, toBool);
      var f := if isLocal then FilesIn(runDir) else RemoteLayout(inst).files;
      v.Keys == base.Keys + OverlaidKeys &&
      v["db_filename"] == VStr(f.db) && v["log_filename"] == VStr(f.log) && v["pcap_filename"] == VStr(f.pcap) &&
      v["enable_pcap"].VBool? &&
      forall k :: k in base && k !in OverlaidKeys ==> v[k] == base[k]
  {
    var f := ConfigFiles(isLocal, runDir, inst);
    var p := PathPatch(f);
    PathPatchNames(f);
    var v1 := Overlay(base, p);
    var e := map["enable_pcap" := VBool(toBool(Get(v1, "enable_pcap", VStr("false"))))];
    assert e.Keys == {"enable_pcap"};
    var v := Overlay(v1, e);
    assert v == EpcValues(base, isLocal, runDir, inst, toBool);
    forall k | k in p
      ensures v[k] == p[k]
    {
      assert k !in e;
    }
  }

  /** What `configure` renders into the configuration and user database files: the `epc`
      namespace and the subscriber list placed under `epc.hss.subscribers`. */
  datatype Rendered = Rendered(epc: Namespace, subscribers: seq<Subscriber>)

  /** The staging of a remote EPC: the install tree, the run directory, the configuration
      and the user database. */
  function StagingOps(inst: string, files: EpcFiles, remote: RemoteEpc): seq<RemoteOp> {
    [RecreateDir(remote.inst), ScpTo("scp-inst-to-remote", inst, RemoteDir), RecreateDir(remote.runDir),
     ScpTo("scp-cfg-to-remote", files.config, remote.files.config),
     ScpTo("scp-db-to-remote", files.db, remote.files.db)]
  }

  /** What a start needs: the binary, its library directory, the configuration file and the
      process name. */
  datatype StartPlan = StartPlan(binary: string, lib: string, config: string, name: string)

  /** The RPATH patch (capabilities disable `LD_LIBRARY_PATH`) and CAP_NET_ADMIN for the
      tunnel device. */
  function StartOps(p: StartPlan): seq<RemoteOp> {
    [ChangeRpath(p.binary, p.lib), SetCap(p.binary, "CAP_NET_ADMIN")]
  }

  // ---------------------------------------------------------------------------------------
  // S1 Setup

  const S1SetupMarker := "S1 Setup Request"
  const EnbIdLabel := "eNB id: "

  /** `enb_is_connected`: some output line is an S1 Setup Request ending with the eNodeB's id
      in lower-case hexadecimal. */
  predicate EnbConnected(stdout: string, enbId: nat) {
    exists k :: 0 <= k < |SplitLines(stdout)| &&
      StartsWith(SplitLines(stdout)[k], S1SetupMarker) && EndsWith(SplitLines(stdout)[k], EnbIdLabel + HexLower(enbId))
  }

  /** The scan over the output's lines, returning at the first matching line. */
  method EnbIsConnected(stdout: string, enbId: nat) returns (b: bool)
    ensures b == EnbConnected(stdout, enbId)
  {
    var lines := SplitLines(stdout);
    var suffix := EnbIdLabel + HexLower(enbId);
    var i := 0;
    while i < |lines|
      invariant 0 <= i <= |lines|
      invariant forall k :: 0 <= k < i ==> !(StartsWith(lines[k], S1SetupMarker) && EndsWith(lines[k], suffix))
    {
      if StartsWith(lines[i], S1SetupMarker) && EndsWith(lines[i], suffix) {
        return true;
      }
      i := i + 1;
    }
    b := false;
  }

  /** A connected eNodeB's S1 Setup Request marker and id both occur in the output. */
  lemma ConnectedOccurs(stdout: string, enbId: nat)
    requires EnbConnected(stdout, enbId)
    ensures Contains(stdout, S1SetupMarker) && Contains(stdout, EnbIdLabel + HexLower(enbId))
  {
    var lines := SplitLines(stdout);
    var k :| 0 <= k < |lines| && StartsWith(lines[k], S1SetupMarker) && EndsWith(lines[k], EnbIdLabel + HexLower(enbId));
    var q := SplitLinesOccur(stdout, k, lines[k]);
    EndsOfInfix(stdout, lines[k], q, S1SetupMarker, EnbIdLabel + HexLower(enbId));
  }

  /** Hexadecimal digits are never line breaks. */
  lemma HexHasNoBreak(n: nat)
    ensures forall j :: 0 <= j < |HexLower(n)| ==> !IsLineBreak(HexLower(n)[j])
  {
    HexDigitsNoBreak(n);
  }

  lemma {:induction false} HexDigitsNoBreak(n: nat)
    ensures forall j :: 0 <= j < |HexDigits(n)| ==> '0' <= HexDigits(n)[j] <= 'f'
  {
    if n >= 16 {
      HexDigitsNoBreak(n / 16);
    }
  }

  /** A non-empty text without line breaks is a single line. */
  lemma SingleLine(line: string)
    requires |line| > 0 && forall j :: 0 <= j < |line| ==> !IsLineBreak(line[j])
    ensures SplitLines(line) == [line]
  {
    FirstBreakNone(line);
  }

  /** Three texts without line breaks joined make a text without line breaks. */
  lemma NoBreakJoined(a: string, b: string, c: string)
    requires forall j :: 0 <= j < |a| ==> !IsLineBreak(a[j])
    requires forall j :: 0 <= j < |b| ==> !IsLineBreak(b[j])
    requires forall j :: 0 <= j < |c| ==> !IsLineBreak(c[j])
    ensures forall j :: 0 <= j < |a + b + c| ==> !IsLineBreak((a + b + c)[j])
  {
    forall j | 0 <= j < |a + b + c|
      ensures !IsLineBreak((a + b + c)[j])
    {
      if j >= |a| + |b| {
        assert (a + b + c)[j] == c[j - |a| - |b|];
      } else if j >= |a| {
        assert (a + b + c)[j] == b[j - |a|];
      }
    }
  }

  /** The sample console line of srsEPC, `S1 Setup Request - eNB Name: <name>, eNB id: <hex>`,
      alone in the output marks exactly that eNodeB as connected. */
  lemma SampleLineConnects(enbName: string, enbId: nat)
    requires forall j :: 0 <= j < |enbName| ==> !IsLineBreak(enbName[j])
    ensures EnbConnected(S1SetupMarker + " - eNB Name: " + enbName + ", " + EnbIdLabel + HexLower(enbId), enbId)
  {
    var a := S1SetupMarker + " - eNB Name: ";
    var c := ", " + EnbIdLabel;
    var line := a + enbName + c + HexLower(enbId);
    assert line == S1SetupMarker + " - eNB Name: " + enbName + ", " + EnbIdLabel + HexLower(enbId);
    HexHasNoBreak(enbId);
    assert forall j :: 0 <= j < |a| ==> !IsLineBreak(a[j]);
    assert forall j :: 0 <= j < |c| ==> !IsLineBreak(c[j]);
    NoBreakJoined(a, enbName, c);
    NoBreakJoined(a + enbName + c, HexLower(enbId), "");
    assert a + enbName + c + HexLower(enbId) + "" == line;
    SingleLine(line);
    assert line[..|S1SetupMarker|] == S1SetupMarker;
    var head := S1SetupMarker + " - eNB Name: " + enbName + ", ";
    assert line == head + (EnbIdLabel + HexLower(enbId));
    ConcatAffixes(head, EnbIdLabel + HexLower(enbId));
    assert StartsWith(SplitLines(line)[0], S1SetupMarker) && EndsWith(SplitLines(line)[0], EnbIdLabel + HexLower(enbId));
  }

  // ---------------------------------------------------------------------------------------
  // The srsEPC object

  class SrsEpc {
    var runNode: RunNode
    /** `name()`, given by the EPC base class. */
    var name: string
    var runDir: string
    var inst: string
    /** Local artifact paths in the run directory. */
    var files: EpcFiles
    /** The remote layout, set by `configure` for a remote EPC. */
    var remote: Option<RemoteEpc>
    var process: Option<ProcessHandle>
    var enablePcap: bool
    var subscribers: seq<Subscriber>

    /** Ids are list indices, and a remote EPC has its remote layout once its process
        exists. */
    predicate Valid()
      reads this
    {
      IdsAreIndices(subscribers) && (process.Some? && !runNode.isLocal ==> remote.Some?)
    }

    constructor(node: RunNode, epcName: string)
      ensures runNode == node && name == epcName
      ensures process.None? && remote.None? && !enablePcap && subscribers == []
      ensures Valid()
    {
      runNode := node;
      name := epcName;
      runDir := "";
      inst := "";
      files := EpcFiles("", "", "", "");
      remote := None;
      process := None;
      enablePcap := false;
      subscribers := [];
    }

    /** `subscriber_add`: appends one validated row whose id is the list's length before the
        call, and returns that id; a rejected modem leaves the list as it was. */
    method SubscriberAdd(modem: Modem, msisdn: Option<string>, algo: Option<string>) returns (r: Result<nat>)
      requires Valid()
      modifies this`subscribers
      ensures Valid()
      ensures r.Ok? <==> NewSubscriber(modem, msisdn, algo, |old(subscribers)|).Ok?
      ensures r.Ok? ==> (r.value == |old(subscribers)| &&
        subscribers == old(subscribers) + [NewSubscriber(modem, msisdn, algo, |old(subscribers)|).value])
      ensures r.Err? ==> subscribers == old(subscribers)
    {
      var s := NewSubscriber(modem, msisdn, algo, |subscribers|);
      if s.Err? {
        return Err(s.error);
      }
      var id := |subscribers|;
      subscribers := subscribers + [s.value];
      r := Ok(id);
    }

    /** `configure`: checks the install, fixes the local and (for a remote EPC) remote
        artifact paths, builds the `epc` namespace, sets every subscriber's `qci` to the
        configured one (which must be present) and, for a remote EPC, stages the install, the
        configuration and the user database. `base` is the base class's `epc` namespace. */
    method Configure(trialInst: string, hasLib: bool, hasBin: bool, base: Namespace, toBool: Value -> bool,
                     ok: RemoteOp -> bool)
      returns (out: Outcome, rendered: Option<Rendered>, staged: seq<RemoteOp>)
      requires Valid()
      modifies this`inst, this`files, this`remote, this`enablePcap, this`subscribers
      ensures Valid()
      ensures inst == trialInst
      ensures unchanged(this`runNode, this`name, this`runDir, this`process)
      ensures !hasLib || !hasBin ==>
        out.Fail? && rendered.None? && staged == [] && files == old(files) && remote == old(remote) &&
        subscribers == old(subscribers) && enablePcap == old(enablePcap)
      ensures hasLib && hasBin ==>
        var v := EpcValues(base, runNode.isLocal, runDir, inst, toBool);
        files == FilesIn(runDir) &&
        remote == (if runNode.isLocal then old(remote) else Some(RemoteLayout(inst))) &&
        enablePcap == v["enable_pcap"].b &&
        (Get(v, "qci", VNone) == VNone ==> out.Fail? && rendered.None? && staged == [] && subscribers == old(subscribers)) &&
        (Get(v, "qci", VNone) != VNone ==>
           subscribers == WithQci(old(subscribers), v["qci"]) &&
           rendered == Some(Rendered(v, subscribers)) &&
           (runNode.isLocal ==> out.Pass? && staged == []) &&
           (!runNode.isLocal ==>
              staged == Attempted(StagingOps(inst, files, remote.value), ok) &&
              (out.Pass? <==> FirstFailure(StagingOps(inst, files, remote.value), ok) == 5)))
    {
      inst := trialInst;
      if !hasLib {
        return Fail("No lib/ in " + trialInst), None, [];
      }
      if !hasBin {
        return Fail("No " + BinFile + " binary in " + trialInst), None, [];
      }
      files := FilesIn(runDir);
      if !runNode.isLocal {
        remote := Some(RemoteLayout(trialInst));
      }
      var v := ComposeValues(base, runNode.isLocal, runDir, trialInst, toBool);
      enablePcap := v["enable_pcap"].b;
      var qci := Get(v, "qci", VNone);
      if qci == VNone {
        return Fail("AssertionError: qci is None"), None, [];
      }
      WithQciKeeps(subscribers, qci);
      subscribers := SetQci(subscribers, qci);
      rendered := Some(Rendered(v, subscribers));
      if !runNode.isLocal {
        staged, out := RunRemoteOps(StagingOps(trialInst, files, remote.value), ok);
      } else {
        staged, out := [], Pass;
      }
    }

    /** The path and `enable_pcap` overlays, as the source applies them. */
    static method ComposeValues(base: Namespace, isLocal: bool, runDir: string, inst: string, toBool: Value -> bool)
      returns (v: Namespace)
      ensures v == EpcValues(base, isLocal, runDir, inst, toBool)
      ensures "enable_pcap" in v && v["enable_pcap"].VBool?
    {
      var f := ConfigFiles(isLocal, runDir, inst);
      v := Overlay(base, PathPatch(f));
      var pcap := toBool(Get(v, "enable_pcap", VStr("false")));
      v := Overlay(v, map["enable_pcap" := VBool(pcap)]);
    }

    /** The binary, library, configuration and process name of a start: the local install
        and `name()` on the master, the remote layout and `srsepc` elsewhere. */
    function Start(): StartPlan
      reads this`runNode, this`inst, this`files, this`remote, this`name
      requires runNode.isLocal || remote.Some?
    {
      if runNode.isLocal then StartPlan(Child(Child(inst, "bin"), BinFile), Child(inst, "lib"), files.config, name)
      else
        var r := remote.value;
        StartPlan(Child(Child(r.inst, "bin"), BinFile), Child(r.inst, "lib"), r.files.config, BinFile)
    }

    /** `start_locally` / `start_remotely`: prepares the binary and launches srsEPC with its
        configuration file. A failing preparation step raises before the launch. */
    method StartProcess(ok: RemoteOp -> bool) returns (out: Outcome)
      requires runNode.isLocal || remote.Some?
      modifies this`process
      ensures out.Pass? <==> FirstFailure(StartOps(Start()), ok) == 2
      ensures out.Pass? ==> process == Some(Launch(Start().name, [Start().binary, Start().config]))
      ensures out.Fail? ==> process == old(process)
      ensures unchanged(this`runNode, this`name, this`runDir, this`inst, this`files, this`remote)
    {
      var plan := Start();
      var _, prepared := RunRemoteOps(StartOps(plan), ok);
      if prepared.Fail? {
        return prepared;
      }
      process := Some(Launch(plan.name, [plan.binary, plan.config]));
      out := Pass;
    }

    /** `start`: takes the run directory, configures and starts. A failing step raises before
        the process is launched. */
    method Begin(dir: string, trialInst: string, hasLib: bool, hasBin: bool, base: Namespace,
                 toBool: Value -> bool, ok: RemoteOp -> bool) returns (out: Outcome)
      requires Valid()
      modifies this
      ensures Valid()
      ensures runDir == dir && runNode == old(runNode) && name == old(name)
      ensures out.Fail? ==> process == old(process)
      ensures out.Pass? <==>
        var v := EpcValues(base, runNode.isLocal, dir, trialInst, toBool);
        hasLib && hasBin && Get(v, "qci", VNone) != VNone &&
        (runNode.isLocal || remote.Some?) &&
        (!runNode.isLocal ==> FirstFailure(StagingOps(inst, files, remote.value), ok) == 5) &&
        FirstFailure(StartOps(Start()), ok) == 2
      ensures out.Pass? ==>
        var v := EpcValues(base, runNode.isLocal, dir, trialInst, toBool);
        inst == trialInst && files == FilesIn(dir) &&
        enablePcap == v["enable_pcap"].b && subscribers == WithQci(old(subscribers), v["qci"]) &&
        process == Some(Launch(Start().name, [Start().binary, Start().config]))
    {
      runDir := dir;
      var configured, _, _ := Configure(trialInst, hasLib, hasBin, base, toBool, ok);
      ghost var v := EpcValues(base, runNode.isLocal, dir, trialInst, toBool);
      ghost var staged := (runNode.isLocal || remote.Some?) &&
        (!runNode.isLocal ==> FirstFailure(StagingOps(inst, files, remote.value), ok) == 5);
      if configured.Fail? {
        assert !(hasLib && hasBin && Get(v, "qci", VNone) != VNone && staged);
        return configured;
      }
      assert hasLib && hasBin && Get(v, "qci", VNone) != VNone && staged;
      out := StartProcess(ok);
    }

    /** `enb_is_connected` on the process's output; without a process the call raises. */
    method EnbIsConnectedNow(enbId: nat) returns (r: Result<bool>)
      ensures process.None? ==> r.Err?
      ensures process.Some? ==> r == Ok(EnbConnected(process.value.stdout, enbId))
    {
      if process.None? {
        return Err("'NoneType' object has no attribute 'get_stdout'");
      }
      var b := EnbIsConnected(process.value.stdout, enbId);
      r := Ok(b);
    }

    /** The copy-back operations of `cleanup`: nothing without a process or on the master,
        otherwise the log and, with pcap enabled, the pcap. A failure of either is logged and
        swallowed, so both are always attempted. */
    method Cleanup() returns (pulls: seq<RemoteOp>)
      requires Valid()
      ensures process.None? || runNode.isLocal ==> pulls == []
      ensures process.Some? && !runNode.isLocal ==>
        remote.Some? &&
        pulls == [ScpFrom("scp-back-log", remote.value.files.log, files.log)] +
                 (if enablePcap then [ScpFrom("scp-back-pcap", remote.value.files.pcap, files.pcap)] else [])
    {
      if process.None? || runNode.isLocal {
        return [];
      }
      pulls := [ScpFrom("scp-back-log", remote.value.files.log, files.log)];
      if enablePcap {
        pulls := pulls + [ScpFrom("scp-back-pcap", remote.value.files.pcap, files.pcap)];
      }
    }
  }
}

/** The older srsEPC wrapper: the RLC DRB mode to QCI mapping, its subscriber list, its
    configuration, its remote and local starts, its cleanup and its S1 Setup observer. Paths,
    file names and subscriber rows are those of the newer wrapper. */
module SrsEpc {
  import opened Text
  import opened Base
  import EpcSrs

  // ---------------------------------------------------------------------------------------
  // QCI

  /** `rlc_drb_mode2qci`: unacknowledged mode is QCI 7, acknowledged mode QCI 9, in any
      letter case; any other mode raises. */
  function RlcDrbMode2Qci(mode: string): (r: Result<int>)
    ensures r == Ok(7) <==> Upper(mode) == "UM"
    ensures r == Ok(9) <==> Upper(mode) == "AM"
    ensures r.Err? <==> Upper(mode) != "UM" && Upper(mode) != "AM"
  {
    if Upper(mode) == "UM" then Ok(7)
    else if Upper(mode) == "AM" then Ok(9)
    else Err("Unexpected rlc_drb_mode")
  }

  /** Lower-case and mixed-case spellings map like the upper-case ones. */
  lemma RlcDrbModeCase()
    ensures RlcDrbMode2Qci("um") == RlcDrbMode2Qci("Um") == RlcDrbMode2Qci("UM") == Ok(7)
    ensures RlcDrbMode2Qci("am") == RlcDrbMode2Qci("aM") == RlcDrbMode2Qci("AM") == Ok(9)
    ensures RlcDrbMode2Qci("tm").Err?
  {
    assert Upper("um") == Upper("Um") == Upper("UM") == "UM";
    assert Upper("am") == Upper("aM") == Upper("AM") == "AM";
    assert Upper("tm") == "TM";
  }

  /** The QCI of a configured mode value; a value that is not a string has no `upper`. */
  function QciOf(mode: Value): (r: Result<int>)
    ensures r.Ok? ==> mode.VStr? && r == RlcDrbMode2Qci(mode.s)
  {
    if mode.VStr? then RlcDrbMode2Qci(mode.s) else Err("'" + "value' object has no attribute 'upper'")
  }

  /** `configure`'s loop: each row in turn gets the QCI of the mode, computed anew for every
      row. The mode is only looked at when there is a row, so an empty list accepts any
      mode. */
  method SetQciFromMode(subs: seq<EpcSrs.Subscriber>, mode: Value) returns (r: Result<seq<EpcSrs.Subscriber>>)
    ensures r.Err? <==> |subs| > 0 && QciOf(mode).Err?
    ensures r.Ok? && |subs| == 0 ==> r.value == []
    ensures r.Ok? && |subs| > 0 ==> r.value == EpcSrs.WithQci(subs, VInt(QciOf(mode).value))
  {
    var rows := subs;
    var i := 0;
    while i < |rows|
      invariant 0 <= i <= |rows| == |subs|
      invariant i > 0 ==> QciOf(mode).Ok?
      invariant forall j :: 0 <= j < i ==> rows[j] == subs[j].(qci := Some(VInt(QciOf(mode).value)))
      invariant forall j :: i <= j < |rows| ==> rows[j] == subs[j]
    {
      var q := QciOf(mode);
      if q.Err? {
        return Err(q.error);
      }
      rows := rows[i := rows[i].(qci := Some(VInt(q.value)))];
      i := i + 1;
    }
    r := Ok(rows);
  }

  // ---------------------------------------------------------------------------------------
  // Subscribers

  /** The row `subscriber_add` appends under the given id for the given MSISDN: an algorithm
      other than `none` needs a KI; the algorithm is stored as requested, without an OPC. */
  function NewSubscriber(modem: EpcSrs.Modem, msisdn: string, algo: Option<string>, id: nat): (r: Result<EpcSrs.Subscriber>)
    ensures r.Err? <==> EpcSrs.RequestedAlgo(modem, algo) != EpcSrs.AlgoNone && !EpcSrs.Truthy(modem.ki)
    ensures r.Ok? ==> r.value.id == id && r.value.msisdn == msisdn && r.value.imsi == modem.imsi &&
                      r.value.authAlgo == EpcSrs.RequestedAlgo(modem, algo) && r.value.ki == modem.ki &&
                      r.value.opc.None? && r.value.apnIpaddr.None? && r.value.qci.None?
  {
    var a := EpcSrs.RequestedAlgo(modem, algo);
    if a != EpcSrs.AlgoNone && !EpcSrs.Truthy(modem.ki) then Err("Auth algo " + a + " selected but no KI specified")
    else Ok(EpcSrs.Subscriber(id, modem.imsi, msisdn, a, modem.ki, None, None, None))
  }

  /** Unlike the newer wrapper, milenage is accepted without an OPC and stored under its own
      name; where the newer wrapper accepts a milenage modem, this one does too. */
  lemma MilenageDiffers(modem: EpcSrs.Modem, msisdn: string, id: nat)
    requires EpcSrs.Truthy(modem.ki)
    ensures NewSubscriber(modem, msisdn, Some("milenage"), id).Ok?
    ensures NewSubscriber(modem, msisdn, Some("milenage"), id).value.authAlgo == "milenage"
    ensures EpcSrs.NewSubscriber(modem, Some(msisdn), Some("milenage"), id).Ok? ==>
      EpcSrs.NewSubscriber(modem, Some(msisdn), Some("milenage"), id).value.authAlgo == "mil"
  {
  }

  // ---------------------------------------------------------------------------------------
  // Starting

  /** The command line: binary, configuration, then the user database, log and pcap file
      options with pcap capture on. */
  function StartArgv(binary: string, files: EpcSrs.EpcFiles): (argv: seq<string>)
    ensures |argv| == 6 && argv[0] == binary && argv[1] == files.config && argv[4] == "--pcap.enable=true"
    ensures EndsWith(argv[2], files.db) && EndsWith(argv[3], files.log) && EndsWith(argv[5], files.pcap)
  {
    ConcatAffixes("--hss.db_file=", files.db);
    ConcatAffixes("--log.filename=", files.log);
    ConcatAffixes("--pcap.filename=", files.pcap);
    [binary, files.config, "--hss.db_file=" + files.db, "--log.filename=" + files.log,
     "--pcap.enable=true", "--pcap.filename=" + files.pcap]
  }

  /** The binary of an install tree. */
  function BinaryIn(inst: string): string {
    Child(Child(inst, "bin"), EpcSrs.BinFile)
  }

  /** A child path starts with its directory. */
  lemma ChildUnder(dir: string, name: string)
    ensures StartsWith(Child(dir, name), dir + "/")
  {
    assert Child(dir, name) == (dir + "/") + name;
    ConcatAffixes(dir + "/", name);
  }

  /** Extending a text keeps its prefix. */
  lemma StartsWithLonger(a: string, p: string, x: string)
    requires StartsWith(a, p)
    ensures StartsWith(a + x, p)
  {
    assert (a + x)[..|p|] == a[..|p|];
  }

  /** A flag followed by a path under a directory contains that directory. */
  lemma FlagOnPath(flag: string, path: string, p: string)
    requires StartsWith(path, p)
    ensures Contains(flag + path, p)
  {
    assert (flag + path)[|flag|..|flag| + |p|] == path[..|p|];
    ContainsAt(flag + path, p, |flag|);
  }

  /** When the binary and every file are under a directory, so is every path on the
      command line. */
  lemma ArgvUnder(binary: string, files: EpcSrs.EpcFiles, p: string)
    requires StartsWith(binary, p) && StartsWith(files.config, p) && StartsWith(files.db, p)
    requires StartsWith(files.log, p) && StartsWith(files.pcap, p)
    ensures var argv := StartArgv(binary, files); forall k :: 0 <= k < 6 && k != 4 ==> Contains(argv[k], p)
  {
    var argv := StartArgv(binary, files);
    forall k | 0 <= k < 6 && k != 4
      ensures Contains(argv[k], p)
    {
      if k == 0 {
        FlagOnPath("", binary, p);
        assert "" + binary == argv[0];
      } else if k == 1 {
        FlagOnPath("", files.config, p);
        assert "" + files.config == argv[1];
      } else if k == 2 {
        FlagOnPath("--hss.db_file=", files.db, p);
      } else if k == 3 {
        FlagOnPath("--log.filename=", files.log, p);
      } else {
        FlagOnPath("--pcap.filename=", files.pcap, p);
      }
    }
  }

  /** The run directory's files are under the run directory. */
  lemma FilesUnder(dir: string)
    ensures var f := EpcSrs.FilesIn(dir); var p := dir + "/";
      StartsWith(f.config, p) && StartsWith(f.db, p) && StartsWith(f.log, p) && StartsWith(f.pcap, p)
  {
    ChildUnder(dir, EpcSrs.CfgFile);
    ChildUnder(dir, EpcSrs.DbFile);
    ChildUnder(dir, EpcSrs.LogFile);
    ChildUnder(dir, EpcSrs.PcapFile);
  }

  /** Every path on a remote start's command line is under `/osmo-gsm-tester-srsepc/`. */
  lemma RemoteArgvIsRemote(inst: string)
    ensures var r := EpcSrs.RemoteLayout(inst); var argv := StartArgv(BinaryIn(r.inst), r.files);
      forall k :: 0 <= k < 6 && k != 4 ==> Contains(argv[k], EpcSrs.RemoteDir + "/")
  {
    var r := EpcSrs.RemoteLayout(inst);
    var p := EpcSrs.RemoteDir + "/";
    var rd := Child(EpcSrs.RemoteDir, EpcSrs.BinFile);
    ChildUnder(EpcSrs.RemoteDir, Basename(inst));
    StartsWithLonger(r.inst, p, "/bin");
    StartsWithLonger(Child(r.inst, "bin"), p, "/" + EpcSrs.BinFile);
    assert BinaryIn(r.inst) == Child(r.inst, "bin") + ("/" + EpcSrs.BinFile);
    ChildUnder(EpcSrs.RemoteDir, EpcSrs.BinFile);
    FilesUnder(rd);
    var f := r.files;
    StartsWithLonger(rd, p, "/" + EpcSrs.CfgFile);
    StartsWithLonger(rd, p, "/" + EpcSrs.DbFile);
    StartsWithLonger(rd, p, "/" + EpcSrs.LogFile);
    StartsWithLonger(rd, p, "/" + EpcSrs.PcapFile);
    assert f.config == rd + ("/" + EpcSrs.CfgFile) && f.db == rd + ("/" + EpcSrs.DbFile);
    assert f.log == rd + ("/" + EpcSrs.LogFile) && f.pcap == rd + ("/" + EpcSrs.PcapFile);
    ArgvUnder(BinaryIn(r.inst), f, p);
  }

  /** The same command line on the master names the run directory's files. */
  lemma LocalArgvIsLocal(inst: string, runDir: string)
    ensures var argv := StartArgv(BinaryIn(inst), EpcSrs.FilesIn(runDir));
      forall k :: 1 <= k < 6 && k != 4 ==> Contains(argv[k], runDir + "/")
  {
    var f := EpcSrs.FilesIn(runDir);
    var p := runDir + "/";
    FilesUnder(runDir);
    FlagOnPath("", f.config, p);
    assert "" + f.config == f.config;
    FlagOnPath("--hss.db_file=", f.db, p);
    FlagOnPath("--log.filename=", f.log, p);
    FlagOnPath("--pcap.filename=", f.pcap, p);
  }

  /** The remote staging and preparation of `start_remotely`: the install tree, a fresh run
      directory, the configuration and the user database, then the RPATH patch and
      CAP_NET_ADMIN on the remote binary. */
  function RemoteStartOps(inst: string, files: EpcSrs.EpcFiles, r: EpcSrs.RemoteEpc): seq<RemoteOp> {
    [RecreateDir(r.inst), ScpTo("scp-inst-to-remote", inst, EpcSrs.RemoteDir), CreateDir(r.runDir),
     ScpTo("scp-cfg-to-remote", files.config, r.files.config),
     ScpTo("scp-db-to-remote", files.db, r.files.db),
     ChangeRpath(BinaryIn(r.inst), Child(r.inst, "lib")), SetCap(BinaryIn(r.inst), "CAP_NET_ADMIN")]
  }

  /** The preparation of a start on the master. */
  function LocalStartOps(inst: string): seq<RemoteOp> {
    [ChangeRpath(BinaryIn(inst), Child(inst, "lib")), SetCap(BinaryIn(inst), "CAP_NET_ADMIN")]
  }

  // ---------------------------------------------------------------------------------------
  // S1 Setup

  const S1SetupMarker := "S1 Setup Request - eNB Id"

  /** `enb_is_connected`: the output mentions an S1 Setup Request, whichever eNodeB sent it. */
  predicate EnbConnected(stdout: string) {
    Contains(stdout, S1SetupMarker)
  }

  /** Output only grows, and a connected eNodeB stays connected. */
  lemma ConnectedStays(stdout: string, more: string)
    requires EnbConnected(stdout)
    ensures EnbConnected(stdout + more)
  {
    var i := Find(stdout, S1SetupMarker);
    assert (stdout + more)[i..i + |S1SetupMarker|] == stdout[i..i + |S1SetupMarker|];
    ContainsAt(stdout + more, S1SetupMarker, i);
  }

  // ---------------------------------------------------------------------------------------
  // The srsEPC object

  /** What `configure` renders: the `epc` namespace and the subscriber list. */
  function EpcValues(defaults: Namespace, suiteEpc: Namespace, addr: string): (v: Namespace)
    ensures "run_addr" in v && v["run_addr"] == VStr(addr)
    ensures forall k :: k != "run_addr" && k in suiteEpc ==> k in v && v[k] == suiteEpc[k]
    ensures forall k :: k != "run_addr" && k in defaults && k !in suiteEpc ==> k in v && v[k] == defaults[k]
  {
    Overlay(Overlay(defaults, suiteEpc), map["run_addr" := VStr(addr)])
  }

  class SrsEpc {
    var runNode: RunNode
    var runDir: string
    var inst: string
    /** Local artifact paths in the run directory. */
    var files: EpcSrs.EpcFiles
    /** The remote layout, set by `start_remotely`. */
    var remote: Option<EpcSrs.RemoteEpc>
    var process: Option<ProcessHandle>
    var subscribers: seq<EpcSrs.Subscriber>

    /** Ids are list indices, and a remote EPC has its remote layout once its process
        exists. */
    predicate Valid()
      reads this
    {
      EpcSrs.IdsAreIndices(subscribers) && (process.Some? && !runNode.isLocal ==> remote.Some?)
    }

    /** `srsepc_<run address>`. */
    function Name(): string
      reads this`runNode
    {
      "srsepc_" + runNode.runAddr
    }

    constructor(node: RunNode)
      ensures runNode == node && process.None? && remote.None? && subscribers == []
      ensures Valid()
    {
      runNode := node;
      runDir := "";
      inst := "";
      files := EpcSrs.EpcFiles("", "", "", "");
      remote := None;
      process := None;
      subscribers := [];
    }

    /** `subscriber_add`: a missing MSISDN is taken from the resource pool, and the modem is
        given the MSISDN used (even when the row is then refused). The row's id is the list's
        length before the call. */
    method SubscriberAdd(modem: EpcSrs.Modem, msisdn: Option<string>, algo: Option<string>, poolMsisdn: string)
      returns (r: Result<nat>, givenMsisdn: string)
      requires Valid()
      modifies this`subscribers
      ensures Valid()
      ensures givenMsisdn == msisdn.GetOr(poolMsisdn)
      ensures r.Ok? <==> NewSubscriber(modem, givenMsisdn, algo, |old(subscribers)|).Ok?
      ensures r.Ok? ==> (r.value == |old(subscribers)| &&
        subscribers == old(subscribers) + [NewSubscriber(modem, givenMsisdn, algo, |old(subscribers)|).value])
      ensures r.Err? ==> subscribers == old(subscribers)
    {
      givenMsisdn := msisdn.GetOr(poolMsisdn);
      var s := NewSubscriber(modem, givenMsisdn, algo, |subscribers|);
      if s.Err? {
        return Err(s.error), givenMsisdn;
      }
      var id := |subscribers|;
      subscribers := subscribers + [s.value];
      r := Ok(id);
    }

    /** `configure`: fixes the local artifact paths, builds the `epc` namespace from the
        defaults, the suite's `epc` section and the run address, and sets every subscriber's
        QCI from `rlc_drb_mode`, which must be present. */
    method Configure(dir: string, defaults: Namespace, suiteEpc: Namespace)
      returns (out: Outcome, rendered: Option<EpcSrs.Rendered>)
      requires Valid()
      modifies this`files, this`subscribers
      ensures Valid()
      ensures files == EpcSrs.FilesIn(dir)
      ensures unchanged(this`runNode, this`runDir, this`process, this`remote)
      ensures var v := EpcValues(defaults, suiteEpc, runNode.runAddr); var mode := Get(v, "rlc_drb_mode", VNone);
        (out.Fail? <==> mode == VNone || (|old(subscribers)| > 0 && QciOf(mode).Err?)) &&
        (out.Fail? ==> rendered.None? && subscribers == old(subscribers)) &&
        (out.Pass? ==> (rendered == Some(EpcSrs.Rendered(v, subscribers)) &&
           |subscribers| == |old(subscribers)| &&
           (|subscribers| > 0 ==> subscribers == EpcSrs.WithQci(old(subscribers), VInt(QciOf(mode).value)))))
    {
      files := EpcSrs.FilesIn(dir);
      var v := EpcValues(defaults, suiteEpc, runNode.runAddr);
      var mode := Get(v, "rlc_drb_mode", VNone);
      if mode == VNone {
        return Fail("AssertionError: rlc_drb_mode is None"), None;
      }
      var rows := SetQciFromMode(subscribers, mode);
      if rows.Err? {
        return Fail(rows.error), None;
      }
      if |subscribers| > 0 {
        EpcSrs.WithQciKeeps(subscribers, VInt(QciOf(mode).value));
      }
      subscribers := rows.value;
      rendered := Some(EpcSrs.Rendered(v, subscribers));
      out := Pass;
    }

    /** `start_remotely`: checks the install, fixes the remote layout, stages and prepares
        the remote binary and launches it with the remote paths. A failing step raises
        before the launch. */
    method StartRemotely(trialInst: string, hasLib: bool, hasBin: bool, ok: RemoteOp -> bool) returns (out: Outcome)
      modifies this`inst, this`remote, this`process
      ensures inst == trialInst
      ensures unchanged(this`runNode, this`runDir, this`files)
      ensures !hasLib || !hasBin ==> out.Fail? && remote == old(remote) && process == old(process)
      ensures hasLib && hasBin ==>
        var r := EpcSrs.RemoteLayout(trialInst);
        remote == Some(r) &&
        (out.Pass? <==> FirstFailure(RemoteStartOps(trialInst, files, r), ok) == 7) &&
        (out.Pass? ==> process == Some(Launch(EpcSrs.BinFile, StartArgv(BinaryIn(r.inst), r.files)))) &&
        (out.Fail? ==> process == old(process))
    {
      inst := trialInst;
      if !hasLib {
        return Fail("No lib/ in " + trialInst);
      }
      if !hasBin {
        return Fail("No " + EpcSrs.BinFile + " binary in " + trialInst);
      }
      var r := EpcSrs.RemoteLayout(trialInst);
      remote := Some(r);
      var _, prepared := RunRemoteOps(RemoteStartOps(trialInst, files, r), ok);
      if prepared.Fail? {
        return prepared;
      }
      process := Some(Launch(EpcSrs.BinFile, StartArgv(BinaryIn(r.inst), r.files)));
      out := Pass;
    }

    /** `start_locally` as written: the binary is named through a module-level `BINFILE` that
        does not exist, so the call raises before anything else happens. */
    method StartLocallyAsWritten() returns (out: Outcome)
      ensures out.Fail?
    {
      out := Fail("NameError: name 'BINFILE' is not defined");
    }

    /** `start_locally` with the class's binary name: checks the binary and the library
        directory, prepares the binary and launches it under `name()` with the run directory's
        paths. A failing step raises before the launch. */
    method StartLocally(trialInst: string, hasLib: bool, hasBin: bool, ok: RemoteOp -> bool) returns (out: Outcome)
      modifies this`process
      ensures !hasBin || !hasLib ==> out.Fail?
      ensures out.Pass? <==> hasBin && hasLib && FirstFailure(LocalStartOps(trialInst), ok) == 2
      ensures out.Pass? ==> process == Some(Launch(Name(), StartArgv(BinaryIn(trialInst), files)))
      ensures out.Fail? ==> process == old(process)
      ensures unchanged(this`runNode, this`runDir, this`files, this`remote)
    {
      if !hasBin {
        return Fail("Binary missing: " + BinaryIn(trialInst));
      }
      if !hasLib {
        return Fail("No lib/ in " + trialInst);
      }
      var _, prepared := RunRemoteOps(LocalStartOps(trialInst), ok);
      if prepared.Fail? {
        return prepared;
      }
      process := Some(Launch(Name(), StartArgv(BinaryIn(trialInst), files)));
      out := Pass;
    }

    /** `start`: takes the run directory, configures and starts on the master or remotely.
        A failing step raises before the process is launched. */
    method Begin(dir: string, defaults: Namespace, suiteEpc: Namespace, trialInst: string, hasLib: bool,
                 hasBin: bool, ok: RemoteOp -> bool) returns (out: Outcome)
      requires Valid()
      modifies this
      ensures Valid()
      ensures runDir == dir && runNode == old(runNode)
      ensures out.Fail? ==> process == old(process)
      ensures out.Pass? <==>
        var mode := Get(EpcValues(defaults, suiteEpc, runNode.runAddr), "rlc_drb_mode", VNone);
        mode != VNone && (|old(subscribers)| > 0 ==> QciOf(mode).Ok?) && hasLib && hasBin &&
        (runNode.isLocal ==> FirstFailure(LocalStartOps(trialInst), ok) == 2) &&
        (!runNode.isLocal ==>
           FirstFailure(RemoteStartOps(trialInst, EpcSrs.FilesIn(dir), EpcSrs.RemoteLayout(trialInst)), ok) == 7)
      ensures out.Pass? ==>
        var mode := Get(EpcValues(defaults, suiteEpc, runNode.runAddr), "rlc_drb_mode", VNone);
        |subscribers| == |old(subscribers)| &&
        (|old(subscribers)| > 0 ==> subscribers == EpcSrs.WithQci(old(subscribers), VInt(QciOf(mode).value))) &&
        files == EpcSrs.FilesIn(dir) &&
        (runNode.isLocal ==> process == Some(Launch(Name(), StartArgv(BinaryIn(trialInst), files)))) &&
        (!runNode.isLocal ==>
           remote == Some(EpcSrs.RemoteLayout(trialInst)) &&
           process == Some(Launch(EpcSrs.BinFile, StartArgv(BinaryIn(remote.value.inst), remote.value.files))))
    {
      runDir := dir;
      var configured, _ := Configure(dir, defaults, suiteEpc);
      if configured.Fail? {
        return configured;
      }
      if runNode.isLocal {
        out := StartLocally(trialInst, hasLib, hasBin, ok);
      } else {
        out := StartRemotely(trialInst, hasLib, hasBin, ok);
      }
    }

    /** `enb_is_connected` on the process's output; without a process the call raises. */
    function EnbIsConnected(): (r: Result<bool>)
      reads this`process
      ensures r.Ok? <==> process.Some?
      ensures r.Ok? ==> (r.value <==> Contains(process.value.stdout, S1SetupMarker))
    {
      if process.None? then Err("'NoneType' object has no attribute 'get_stdout'")
      else Ok(EnbConnected(process.value.stdout))
    }

    /** The copy-back operations of `cleanup`: nothing without a process or on the master,
        otherwise the log and the pcap, each failure logged and swallowed. */
    method Cleanup() returns (pulls: seq<RemoteOp>)
      requires Valid()
      ensures process.None? || runNode.isLocal ==> pulls == []
      ensures process.Some? && !runNode.isLocal ==>
        remote.Some? &&
        pulls == [ScpFrom("scp-back-log", remote.value.files.log, files.log),
                  ScpFrom("scp-back-pcap", remote.value.files.pcap, files.pcap)]
    {
      if process.None? || runNode.isLocal {
        return [];
      }
      pulls := [ScpFrom("scp-back-log", remote.value.files.log, files.log),
                ScpFrom("scp-back-pcap", remote.value.files.pcap, files.pcap)];
    }
  }
}

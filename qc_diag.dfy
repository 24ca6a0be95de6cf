/** The Qualcomm diagnostics wrapper of an Android UE: the observers over the diag parser's
    console output, the parser's argument table and its pcap-writing state machine. */
module QcDiag {
  import opened Text
  import opened Base
  import MsSrs

  const DiagParser := "osmo-gsm-tester_androidue_diag_parser.sh"
  const PullMarker := "Pulling new .qmdl file..."
  const RrcMarker := "LTE_RRC_STATE_CHANGE"
  const StatePrefix := "rrc_state="
  const PagingLine := "Paging received"

  // ---------------------------------------------------------------------------------------
  // RRC state

  /** The line `get_rrc_state` reports from: scanning from the end, only lines at or before
      the last `Pulling new .qmdl file...` line count (the parser has finished writing them),
      and the first of those carrying an RRC state change wins; -1 if there is none. */
  function RrcLine(lines: seq<string>): (k: int)
    ensures -1 <= k < |lines|
    ensures k >= 0 ==> Contains(lines[k], RrcMarker) && k <= MsSrs.LastLineWith(lines, PullMarker)
  {
    var p := MsSrs.LastLineWith(lines, PullMarker);
    if p < 0 then -1
    else
      var k := MsSrs.LastLineWith(lines[..p + 1], RrcMarker);
      assert k >= 0 ==> lines[..p + 1][k] == lines[k];
      k
  }

  /** The reported line is the last state-change line at or before the last pull line, and
      there is none exactly when no state-change line precedes or shares that pull line. */
  lemma RrcLineMeaning(lines: seq<string>)
    ensures var k := RrcLine(lines); var p := MsSrs.LastLineWith(lines, PullMarker);
      (k >= 0 ==> forall j :: k < j <= p ==> !Contains(lines[j], RrcMarker)) &&
      (k < 0 <==> forall j :: 0 <= j <= p ==> !Contains(lines[j], RrcMarker))
  {
    var k := RrcLine(lines);
    var p := MsSrs.LastLineWith(lines, PullMarker);
    if p >= 0 {
      var pre := lines[..p + 1];
      forall j | 0 <= j <= p
        ensures pre[j] == lines[j]
      {
      }
    }
  }

  /** The state of one line as written: the last space-separated token with `rrc_state=`
      removed; quotes around the state stay. */
  function StateOfLine(line: string): string {
    RemoveAll(LastField(line, ' '), StatePrefix)
  }

  /** `get_rrc_state` as written, over the lines of the parser's output. */
  function RrcStateAsWritten(lines: seq<string>): string {
    var k := RrcLine(lines);
    if k < 0 then "" else StateOfLine(lines[k])
  }

  /** `get_rrc_state` as evidently intended: the quotes are stripped as well. */
  function RrcStateIntended(lines: seq<string>): (r: string)
    ensures '\'' !in r
  {
    var s := RemoveAll(RrcStateAsWritten(lines), "'");
    NoQuoteLeft(RrcStateAsWritten(lines));
    s
  }

  /** Removing every quote leaves none. */
  lemma {:induction false} NoQuoteLeft(s: string)
    ensures '\'' !in RemoveAll(s, "'")
    decreases |s|
  {
    if |s| >= 1 {
      assert s[..1] == [s[0]];
      NoQuoteLeft(s[1..]);
    }
  }

  /** Without quotes in the reported token the intended and the as-written state agree. */
  lemma IntendedAgreesWithoutQuotes(lines: seq<string>)
    requires '\'' !in RrcStateAsWritten(lines)
    ensures RrcStateIntended(lines) == RrcStateAsWritten(lines)
  {
    var s := RrcStateAsWritten(lines);
    forall j | 0 <= j && j + 1 <= |s|
      ensures !OccursAt(s, "'", j)
    {
      assert s[j..j + 1][0] == s[j];
    }
  }

  /** The state of a line whose last token is `rrc_state=` followed by a state. */
  lemma StateAfterPrefix(head: string, state: string)
    requires ' ' !in StatePrefix + state && !Contains(state, StatePrefix)
    ensures StateOfLine(head + [' '] + (StatePrefix + state)) == state
  {
    LastFieldAfter(head, StatePrefix + state, ' ');
    RemoveLeading(StatePrefix, state);
  }

  /** A pattern in front of text that does not contain it is removed once. */
  lemma RemoveLeading(p: string, u: string)
    requires |p| > 0 && !Contains(u, p)
    ensures RemoveAll(p + u, p) == u
  {
    assert (p + u)[..|p|] == p;
    assert (p + u)[|p|..] == u;
  }

  const QuotedState := "'CONNECTED'"
  const QuotedLine := RrcMarker + " " + StatePrefix + QuotedState

  /** The quoted state does not contain `rrc_state=`. */
  lemma QuotedStateHasNoPrefix()
    ensures !Contains(QuotedState, StatePrefix)
  {
    forall j | 0 <= j && j + |StatePrefix| <= |QuotedState|
      ensures !OccursAt(QuotedState, StatePrefix, j)
    {
      assert QuotedState[j..j + |StatePrefix|][0] == QuotedState[j] != 'r';
    }
  }

  /** Removing `rrc_state=` from the last token of the example line leaves the quoted
      state. */
  lemma QuotedLineState()
    ensures StateOfLine(QuotedLine) == QuotedState
  {
    QuotedStateHasNoPrefix();
    assert ' ' !in StatePrefix + QuotedState;
    assert QuotedLine == RrcMarker + [' '] + (StatePrefix + QuotedState);
    StateAfterPrefix(RrcMarker, QuotedState);
  }

  /** The pull line carries no state change. */
  lemma PullLineHasNoState()
    ensures !Contains(PullMarker, RrcMarker)
  {
    assert PullMarker[..6] == "Pullin";
    assert forall j :: 0 <= j && j + |RrcMarker| <= |PullMarker| ==> PullMarker[j] != RrcMarker[0];
    NotContainedByHead(PullMarker, RrcMarker);
  }

  /** The output `LTE_RRC_STATE_CHANGE rrc_state='CONNECTED'` followed by a pull line is
      reported as `'CONNECTED'` with its quotes, where `CONNECTED` was meant. */
  lemma QuotesKept()
    ensures RrcStateAsWritten([QuotedLine, PullMarker]) == "'CONNECTED'"
    ensures RrcStateIntended([QuotedLine, PullMarker]) == "CONNECTED"
  {
    var lines := [QuotedLine, PullMarker];
    ContainsAt(PullMarker, PullMarker, 0);
    assert QuotedLine[..|RrcMarker|] == RrcMarker;
    ContainsAt(QuotedLine, RrcMarker, 0);
    PullLineHasNoState();
    assert MsSrs.LastLineWith(lines, PullMarker) == 1;
    assert lines[..2] == lines;
    assert lines[..1] == [QuotedLine];
    assert MsSrs.LastLineWith(lines, RrcMarker) == 0;
    QuotedLineState();
    UnquoteConnected();
  }

  lemma UnquoteConnected()
    ensures RemoveAll("'CONNECTED'", "'") == "CONNECTED"
  {
    var s := "'CONNECTED'";
    assert s[..1] == "'";
    var t := s[1..];
    assert t == "CONNECTED'";
    forall i | 0 <= i < 9
      ensures t[i] != '\''
    {
    }
    assert t[..9] == "CONNECTED";
    assert t[9..] == "'";
    assert t[9..][..1] == "'";
    assert RemoveAll(t[9..], "'") == RemoveAll("", "'") == "";
    RemoveUnrolled(t, 9);
  }

  /** Characters that are not quotes pass through one by one. */
  lemma {:induction false} RemoveUnrolled(t: string, n: nat)
    requires n <= |t|
    requires forall i :: 0 <= i < n ==> t[i] != '\''
    ensures RemoveAll(t, "'") == t[..n] + RemoveAll(t[n..], "'")
    decreases n
  {
    if n == 0 {
      assert t[..0] + t[0..] == t;
    } else {
      var u := t[1..];
      forall i | 0 <= i < n - 1
        ensures u[i] != '\''
      {
        assert u[i] == t[i + 1];
      }
      RemoveUnrolled(u, n - 1);
      assert u[..n - 1] == t[1..n];
      assert u[n - 1..] == t[n..];
      RemoveUnrolledStep(t, n);
    }
  }

  /** One more character before the first quote. */
  lemma RemoveUnrolledStep(t: string, n: nat)
    requires 0 < n <= |t| && t[0] != '\''
    requires RemoveAll(t[1..], "'") == t[1..n] + RemoveAll(t[n..], "'")
    ensures RemoveAll(t, "'") == t[..n] + RemoveAll(t[n..], "'")
  {
    assert t[..1] != "'" by { assert t[..1][0] == t[0]; }
    RemoveKeepsHead(t, "'");
    assert t[..n] == [t[0]] + t[1..n];
    AppendAssoc([t[0]], t[1..n], RemoveAll(t[n..], "'"));
  }

  /** The reverse scan of `get_rrc_state`: `is_full_block` turns on at the last pull line
      and the first state-change line from there backwards is reported. */
  method RrcStateOf(stdout: string) returns (state: string)
    ensures state == RrcStateAsWritten(Split(stdout, '\n'))
  {
    var lines := Split(stdout, '\n');
    state := RrcStateOfLines(lines);
  }

  /** The scan of `get_rrc_state` over the output's lines. */
  method RrcStateOfLines(lines: seq<string>) returns (state: string)
    ensures state == RrcStateAsWritten(lines)
  {
    ghost var p := MsSrs.LastLineWith(lines, PullMarker);
    var isFullBlock := false;
    var i := |lines|;
    while i > 0
      invariant 0 <= i <= |lines|
      invariant isFullBlock <==> i <= p
      invariant NoStateFrom(lines, i, p)
    {
      i := i - 1;
      if !isFullBlock {
        LastLineAt(lines, PullMarker, i);
      }
      if Contains(lines[i], PullMarker) {
        isFullBlock := true;
      }
      if isFullBlock && Contains(lines[i], RrcMarker) {
        RrcLineIs(lines, i);
        state := RemoveAll(LastField(lines[i], ' '), StatePrefix);
        return;
      }
      NoStateStep(lines, i, p);
    }
    NoRrcLine(lines);
    state := "";
  }

  /** No line from `i` up to line `p` is a state-change line. */
  predicate NoStateFrom(lines: seq<string>, i: nat, p: int) {
    forall j :: i <= j < |lines| && j <= p ==> !Contains(lines[j], RrcMarker)
  }

  lemma NoStateStep(lines: seq<string>, i: int, p: int)
    requires 0 <= i < |lines| && NoStateFrom(lines, i + 1, p)
    requires i <= p ==> !Contains(lines[i], RrcMarker)
    ensures NoStateFrom(lines, i, p)
  {
  }

  /** From the last line with a marker onwards, only that line has the marker. */
  lemma LastLineAt(lines: seq<string>, marker: string, i: int)
    requires 0 <= i < |lines| && MsSrs.LastLineWith(lines, marker) <= i
    ensures Contains(lines[i], marker) <==> i == MsSrs.LastLineWith(lines, marker)
  {
  }

  /** Without a state-change line up to the last pull line nothing is reported. */
  lemma NoRrcLine(lines: seq<string>)
    requires forall j :: 0 <= j < |lines| && j <= MsSrs.LastLineWith(lines, PullMarker) ==> !Contains(lines[j], RrcMarker)
    ensures RrcLine(lines) < 0
  {
    RrcLineMeaning(lines);
  }

  /** A state-change line at or before the last pull line with none after it up to that
      pull line is the reported one. */
  lemma RrcLineIs(lines: seq<string>, i: int)
    requires 0 <= i <= MsSrs.LastLineWith(lines, PullMarker)
    requires Contains(lines[i], RrcMarker)
    requires forall j :: i < j <= MsSrs.LastLineWith(lines, PullMarker) ==> !Contains(lines[j], RrcMarker)
    ensures RrcLine(lines) == i
  {
    RrcLineMeaning(lines);
    var k := RrcLine(lines);
    var p := MsSrs.LastLineWith(lines, PullMarker);
    var pre := lines[..p + 1];
    assert pre[i] == lines[i];
    assert k >= 0;
  }

  // ---------------------------------------------------------------------------------------
  // Counters

  /** `get_paging_counter`: the output lines that are exactly `Paging received`. */
  function PagingCount(stdout: string): nat {
    CountEq(Split(stdout, '\n'), PagingLine)
  }

  /** Output made of lines counts exactly the lines equal to `Paging received`: a line with
      anything around the words is not counted. */
  lemma PagingCountOfLines(lines: seq<string>)
    requires |lines| >= 1
    requires forall k :: 0 <= k < |lines| ==> '\n' !in lines[k]
    ensures PagingCount(Join(lines, '\n')) == multiset(lines)[PagingLine]
  {
    SplitJoin(lines, '\n');
  }

  /** `finished_parsing`: the writer has pulled a `.qmdl` file a second time. */
  predicate FinishedParsing(stdout: string) {
    CountOf(stdout, PullMarker) > 1
  }

  /** Parsing has finished exactly when the pull line occurs twice without overlap. */
  lemma FinishedParsingMeaning(stdout: string)
    ensures FinishedParsing(stdout) <==> exists i, j :: TwoDisjoint(stdout, PullMarker, i, j)
  {
    CountAtLeastTwo(stdout, PullMarker);
  }

  // ---------------------------------------------------------------------------------------
  // The diag parser

  /** The parser and the UE share a host: both on the master, or both remote behind the same
      SSH address. */
  predicate SharedHost(parser: RunNode, ue: RunNode) {
    (parser.isLocal && ue.isLocal) || (!parser.isLocal && !ue.isLocal && parser.sshAddr == ue.sshAddr)
  }

  /** The argument vector of the diag parser script: serial, run directory, pcap path, remote
      address and port of the UE. A UE on the master with a remote parser is refused. */
  function ParserArgv(parser: RunNode, ue: RunNode, runDir: string, pcapFile: string,
                      remoteRunDir: string, remotePcapFile: string): (r: Result<seq<string>>)
    ensures r.Err? <==> ue.isLocal && !parser.isLocal
    ensures r.Ok? ==> |r.value| == 6 && r.value[0] == DiagParser
  {
    if ue.isLocal then
      if !parser.isLocal then Err("Running the network locally and the ScatParser remotely is currently not supported")
      else Ok([DiagParser, parser.adbSerialId, runDir, pcapFile, "0", "0"])
    else if parser.isLocal then
      Ok([DiagParser, "0", runDir, pcapFile, ue.sshAddr, ue.sshPort])
    else if parser.sshAddr == ue.sshAddr then
      Ok([DiagParser, parser.adbSerialId, remoteRunDir, remotePcapFile, "0", "0"])
    else
      Ok([DiagParser, "0", remoteRunDir, remotePcapFile, ue.sshAddr, ue.sshPort])
  }

  /** On a shared host the parser talks to the device by its serial and needs no address;
      otherwise it reaches the UE's host by SSH address and port. The directories are the
      parser's own: local ones exactly when the parser runs on the master. */
  lemma ParserArgvTable(parser: RunNode, ue: RunNode, runDir: string, pcapFile: string,
                        remoteRunDir: string, remotePcapFile: string)
    requires ParserArgv(parser, ue, runDir, pcapFile, remoteRunDir, remotePcapFile).Ok?
    ensures var a := ParserArgv(parser, ue, runDir, pcapFile, remoteRunDir, remotePcapFile).value;
      (SharedHost(parser, ue) ==> a[1] == parser.adbSerialId && a[4] == "0" && a[5] == "0") &&
      (!SharedHost(parser, ue) ==> a[1] == "0" && a[4] == ue.sshAddr && a[5] == ue.sshPort) &&
      (parser.isLocal ==> a[2] == runDir && a[3] == pcapFile) &&
      (!parser.isLocal ==> a[2] == remoteRunDir && a[3] == remotePcapFile)
  {
  }

  /** The diag log directory of a parser: under its run directory on the master, under the
      remote run directory (`None` when unset) elsewhere. */
  function DiagDir(isLocal: bool, runDir: string, remoteRunDir: Option<string>): string {
    (if isLocal then runDir else remoteRunDir.GetOr("None")) + "/diag_logs/"
  }

  /** The commands that clear the diag log directory: a chown to the invoking user (on the
      master only if the directory exists) and then its removal, all on that directory. */
  function ClearCommands(isLocal: bool, runDir: string, remoteRunDir: Option<string>, dirExists: bool,
                         localUser: string, sshUser: string): (cmds: seq<seq<string>>)
    ensures 1 <= |cmds| <= 2 && (|cmds| == 2 <==> !isLocal || dirExists)
    ensures forall k :: 0 <= k < |cmds| ==> |cmds[k]| >= 3 && cmds[k][|cmds[k]| - 1] == DiagDir(isLocal, runDir, remoteRunDir)
    ensures cmds[|cmds| - 1][..2] == ["rm", "-r"]
    ensures |cmds| == 2 ==> |cmds[0]| == 5 && cmds[0][..3] == ["sudo", "chown", "-R"] && cmds[0][3] == (if isLocal then localUser else sshUser)
  {
    var dir := DiagDir(isLocal, runDir, remoteRunDir);
    if isLocal then
      (if dirExists then [["sudo", "chown", "-R", localUser, dir]] else []) + [["rm", "-r", dir]]
    else
      [["sudo", "chown", "-R", sshUser, dir], ["rm", "-r", dir]]
  }

  /** Every command of `cmds` exits with status 0. */
  predicate AllExitZero(cmds: seq<seq<string>>, exitOf: seq<string> -> int) {
    forall k :: 0 <= k < |cmds| ==> exitOf(cmds[k]) == 0
  }

  /** Runs helper commands in order; a non-zero exit raises and skips the rest. */
  method RunCommands(cmds: seq<seq<string>>, exitOf: seq<string> -> int) returns (ran: seq<seq<string>>, out: Outcome)
    ensures ran == Attempted(cmds, c => exitOf(c) == 0)
    ensures out.Pass? <==> AllExitZero(cmds, exitOf)
  {
    ghost var ok := c => exitOf(c) == 0;
    ran := [];
    var i := 0;
    while i < |cmds|
      invariant 0 <= i <= |cmds|
      invariant ran == cmds[..i]
      invariant forall j :: 0 <= j < i ==> exitOf(cmds[j]) == 0
    {
      ran := ran + [cmds[i]];
      if exitOf(cmds[i]) != 0 {
        FirstFailureAt(cmds, ok, i);
        return ran, Fail("process exited with non-zero status");
      }
      i := i + 1;
    }
    FirstFailureAt(cmds, ok, |cmds|);
    out := Pass;
  }

  class ScatParser {
    /** Where the parser runs. */
    var runNode: RunNode
    var runDir: string
    var remoteRunDir: Option<string>
    var pcapFile: Option<string>
    var remotePcapFile: Option<string>
    /** Where the UE runs, given by `configure`. */
    var ueNode: Option<RunNode>
    var enablePcap: bool
    /** The parser's argument vector, filled by `start`. */
    var argv: Option<seq<string>>
    /** The long-running parser. */
    var parserProc: Option<ProcessHandle>
    /** The parser run that writes the pcap. */
    var writerProc: Option<ProcessHandle>

    constructor(node: RunNode, dir: string)
      ensures runNode == node && runDir == dir
      ensures remoteRunDir.None? && pcapFile.None? && remotePcapFile.None? && ueNode.None?
      ensures !enablePcap && argv.None? && parserProc.None? && writerProc.None?
    {
      runNode := node;
      runDir := dir;
      remoteRunDir := None;
      pcapFile := None;
      remotePcapFile := None;
      ueNode := None;
      enablePcap := false;
      argv := None;
      parserProc := None;
      writerProc := None;
    }

    /** `configure`: records the UE's node and the pcap flag and fixes the pcap paths, the
        remote ones only for a remote parser. The Android UE's remote directory and pcap file
        name are inputs. */
    method Configure(ue: RunNode, pcap: bool, androidRemoteDir: string, pcapName: string)
      modifies this`ueNode, this`enablePcap, this`remoteRunDir, this`remotePcapFile, this`pcapFile
      ensures ueNode == Some(ue) && enablePcap == pcap && pcapFile == Some(Child(runDir, pcapName))
      ensures !runNode.isLocal ==>
        remoteRunDir == Some(androidRemoteDir) && remotePcapFile == Some(Child(androidRemoteDir, pcapName))
      ensures runNode.isLocal ==> remoteRunDir == old(remoteRunDir) && remotePcapFile == old(remotePcapFile)
    {
      enablePcap := pcap;
      ueNode := Some(ue);
      if !runNode.isLocal {
        remoteRunDir := Some(androidRemoteDir);
        remotePcapFile := Some(Child(androidRemoteDir, pcapName));
      }
      pcapFile := Some(Child(runDir, pcapName));
    }

    /** The argument table for the configured nodes and paths. */
    function Argv(ue: RunNode): Result<seq<string>>
      reads this`runNode, this`runDir, this`pcapFile, this`remoteRunDir, this`remotePcapFile
    {
      ParserArgv(runNode, ue, runDir, PathOr(pcapFile), PathOr(remoteRunDir), PathOr(remotePcapFile))
    }

    /** The clear commands of this parser. */
    function Clear(dirExists: bool, localUser: string): seq<seq<string>>
      reads this`runNode, this`runDir, this`remoteRunDir
    {
      ClearCommands(runNode.isLocal, runDir, remoteRunDir, dirExists, localUser, runNode.sshUser)
    }

    /** `start`: fills the argument vector by index, clears the diag files when the parser is
        remote and launches the parser. The blank vector is kept when the table refuses the
        placement or no UE node was configured. */
    method Start(exitOf: seq<string> -> int, dirExists: bool, localUser: string) returns (out: Outcome)
      modifies this`argv, this`parserProc
      ensures out.Pass? <==>
        ueNode.Some? && Argv(ueNode.value).Ok? && (!runNode.isLocal ==> AllExitZero(Clear(dirExists, localUser), exitOf))
      ensures argv == Some(if ueNode.Some? && Argv(ueNode.value).Ok? then Argv(ueNode.value).value else [DiagParser, "", "", "", "", ""])
      ensures out.Pass? ==> parserProc == Some(Launch("scat_parser_" + runNode.runAddr, argv.value))
      ensures out.Fail? ==> parserProc == old(parserProc)
    {
      var blank := [DiagParser, "", "", "", "", ""];
      argv := Some(blank);
      if ueNode.None? {
        return Fail("'NoneType' object has no attribute 'is_local'");
      }
      var filled := FillArgv(runNode, ueNode.value, runDir, PathOr(pcapFile), PathOr(remoteRunDir), PathOr(remotePcapFile));
      if filled.Err? {
        return Fail(filled.error);
      }
      argv := Some(filled.value);
      if !runNode.isLocal {
        var _, cleared := RunCommands(Clear(dirExists, localUser), exitOf);
        if cleared.Fail? {
          return cleared;
        }
      }
      parserProc := Some(Launch("scat_parser_" + runNode.runAddr, filled.value));
      out := Pass;
    }

    /** The index-by-index filling of the argument vector in `start`. */
    static method FillArgv(parser: RunNode, ue: RunNode, dir: string, pcap: string, remoteDir: string, remotePcap: string)
      returns (r: Result<seq<string>>)
      ensures r == ParserArgv(parser, ue, dir, pcap, remoteDir, remotePcap)
    {
      var a := [DiagParser, "", "", "", "", ""];
      var serial, dir', pcap', addr, port;
      if ue.isLocal {
        if !parser.isLocal {
          return Err("Running the network locally and the ScatParser remotely is currently not supported");
        }
        serial, dir', pcap', addr, port := parser.adbSerialId, dir, pcap, "0", "0";
      } else if parser.isLocal {
        serial, dir', pcap', addr, port := "0", dir, pcap, ue.sshAddr, ue.sshPort;
      } else if parser.sshAddr == ue.sshAddr {
        serial, dir', pcap', addr, port := parser.adbSerialId, remoteDir, remotePcap, "0", "0";
      } else {
        serial, dir', pcap', addr, port := "0", remoteDir, remotePcap, ue.sshAddr, ue.sshPort;
      }
      a := a[1 := serial][2 := dir'][3 := pcap'][4 := addr][5 := port];
      assert a == [DiagParser, serial, dir', pcap', addr, port];
      r := Ok(a);
    }

    /** `write_pcap`: stops a running parser, clears the diag files, runs the parser again to
        write the pcap and waits until it has pulled a second `.qmdl` file (`waited` is its
        output when the wait ends; a wait that ends without that raises). With `restart` the
        writer becomes the parser, otherwise it is stopped. */
    method WritePcap(restart: bool, exitOf: seq<string> -> int, dirExists: bool, localUser: string, waited: string)
      returns (out: Outcome)
      modifies this`parserProc, this`writerProc
      ensures old(parserProc).Some? && !old(parserProc).value.terminated ==> parserProc.Some?
      ensures out.Pass? ==>
        argv.Some? && FinishedParsing(waited) &&
        AllExitZero(Clear(dirExists, localUser), exitOf) &&
        var w := ProcessHandle("write-pcap_" + runNode.runAddr, argv.value, waited, false);
        (restart ==> parserProc == Some(w) && writerProc == Some(w)) &&
        (!restart ==> writerProc == Some(Stopped(w)) && parserProc == StoppedIfRunning(old(parserProc)))
      ensures out.Fail? ==> parserProc == StoppedIfRunning(old(parserProc))
      ensures out.Fail? <==>
        !AllExitZero(Clear(dirExists, localUser), exitOf) ||
        argv.None? || !FinishedParsing(waited)
    {
      if parserProc.Some? && !parserProc.value.terminated {
        parserProc := Some(Stopped(parserProc.value));
      }
      var cmds := Clear(dirExists, localUser);
      var _, cleared := RunCommands(cmds, exitOf);
      if cleared.Fail? {
        return cleared;
      }
      if argv.None? {
        return Fail("'NoneType' object is not iterable");
      }
      var w := ProcessHandle("write-pcap_" + runNode.runAddr, argv.value, waited, false);
      writerProc := Some(w);
      if !FinishedParsing(waited) {
        return Fail("Wait timeout");
      }
      if restart {
        parserProc := writerProc;
      } else {
        writerProc := Some(Stopped(w));
      }
      out := Pass;
    }

    /** The pcap copy of `scp_back_pcap`, when both paths are known; without them the copy
        raises inside the call and is swallowed. */
    function PcapPull(): Option<RemoteOp>
      reads this`pcapFile, this`remotePcapFile
    {
      if pcapFile.Some? && remotePcapFile.Some? then Some(ScpFrom("scp-back-pcap", remotePcapFile.value, pcapFile.value))
      else None
    }

    /** `cleanup`: only with pcap capture on. The pcap is written without restarting the
        parser (a failure there raises) and, for a remote parser, copied back with any
        failure swallowed. */
    method Cleanup(exitOf: seq<string> -> int, dirExists: bool, localUser: string, waited: string)
      returns (out: Outcome, pulls: seq<RemoteOp>)
      modifies this`parserProc, this`writerProc
      ensures !enablePcap ==> out.Pass? && pulls == [] && parserProc == old(parserProc) && writerProc == old(writerProc)
      ensures enablePcap ==>
        (out.Pass? <==>
           argv.Some? && FinishedParsing(waited) &&
           AllExitZero(Clear(dirExists, localUser), exitOf)) &&
        parserProc == StoppedIfRunning(old(parserProc)) &&
        (out.Pass? ==> writerProc == Some(Stopped(ProcessHandle("write-pcap_" + runNode.runAddr, argv.value, waited, false)))) &&
        pulls == (if out.Pass? && !runNode.isLocal && PcapPull().Some? then [PcapPull().value] else [])
    {
      pulls := [];
      if !enablePcap {
        return Pass, [];
      }
      out := WritePcap(false, exitOf, dirExists, localUser, waited);
      if out.Fail? {
        return;
      }
      if !runNode.isLocal {
        var op := PcapPull();
        if op.Some? {
          pulls := [op.value];
        }
      }
    }
  }

  /** A path as `str()` renders it: `None` when it was never set. */
  function PathOr(p: Option<string>): string {
    p.GetOr("None")
  }

  /** The parser handle after `write_pcap`'s first step: stopped if it was running. */
  function StoppedIfRunning(p: Option<ProcessHandle>): Option<ProcessHandle> {
    if p.Some? && !p.value.terminated then Some(Stopped(p.value)) else p
  }

  const DiagMonitorArgv: seq<string> :=
    ["/vendor/bin/diag_mdlog", "-s", "90000", "-f", "/data/local/tmp/ogt_diag.cfg", "-o", "/data/local/tmp/diag_logs"]

  class QcDiagUe {
    /** Where the UE runs. */
    var runNode: RunNode
    var enablePcap: bool
    var parser: ScatParser
    var diagMonitor: Option<ProcessHandle>

    /** The pcap flag is the configured `enable_pcap`, `'false'` when absent, through the
        string to boolean conversion. */
    constructor(node: RunNode, conf: Namespace, toBool: Value -> bool, scatParser: ScatParser)
      ensures runNode == node && parser == scatParser && diagMonitor.None?
      ensures enablePcap == toBool(Get(conf, "enable_pcap", VStr("false")))
    {
      runNode := node;
      enablePcap := toBool(Get(conf, "enable_pcap", VStr("false")));
      parser := scatParser;
      diagMonitor := None;
    }

    /** `start`: launches the diag monitor on the device, then configures and starts the
        parser with this UE's node and pcap flag. */
    method Start(exitOf: seq<string> -> int, dirExists: bool, localUser: string, androidRemoteDir: string,
                 pcapName: string) returns (out: Outcome)
      modifies this`diagMonitor, parser
      ensures diagMonitor == Some(Launch("start-diag-monitor_" + runNode.adbSerialId, DiagMonitorArgv))
      ensures parser.ueNode == Some(runNode) && parser.enablePcap == enablePcap
      ensures out.Pass? ==>
        parser.Argv(runNode).Ok? && parser.argv == Some(parser.Argv(runNode).value) &&
        parser.parserProc == Some(Launch("scat_parser_" + parser.runNode.runAddr, parser.argv.value))
      ensures out.Fail? ==> parser.parserProc == old(parser.parserProc)
      ensures out.Pass? <==> (parser.Argv(runNode).Ok? &&
        (!parser.runNode.isLocal ==> AllExitZero(parser.Clear(dirExists, localUser), exitOf)))
    {
      diagMonitor := Some(Launch("start-diag-monitor_" + runNode.adbSerialId, DiagMonitorArgv));
      parser.Configure(runNode, enablePcap, androidRemoteDir, pcapName);
      out := parser.Start(exitOf, dirExists, localUser);
    }

    /** `get_rrc_state` on the parser's output; without a parser process the call raises. */
    method GetRrcState() returns (r: Result<string>)
      ensures parser.parserProc.None? ==> r.Err?
      ensures parser.parserProc.Some? ==> r == Ok(RrcStateAsWritten(Split(parser.parserProc.value.stdout, '\n')))
    {
      if parser.parserProc.None? {
        return Err("'NoneType' object has no attribute 'get_stdout'");
      }
      var s := RrcStateOf(parser.parserProc.value.stdout);
      r := Ok(s);
    }

    /** `get_paging_counter` on the parser's output; without a parser process the call
        raises. */
    function PagingCounter(): (r: Result<nat>)
      reads this`parser, parser`parserProc
      ensures r.Ok? <==> parser.parserProc.Some?
    {
      if parser.parserProc.None? then Err("'NoneType' object has no attribute 'get_stdout'")
      else Ok(PagingCount(parser.parserProc.value.stdout))
    }
  }
}

/** Values shared by every controlled process: error-carrying results, configuration
    values, run nodes, process handles and the remote-host operations. */
module Base {
  import opened Text

  datatype Option<T> = None | Some(value: T) {
    function GetOr(default: T): T {
      if Some? then value else default
    }
  }

  /** A Python call that either returns a value or raises with a message. */
  datatype Result<T> = Ok(value: T) | Err(error: string) {
    function GetOr(default: T): T {
      if Ok? then value else default
    }
  }

  /** A Python call without a useful return value that either returns or raises. */
  datatype Outcome = Pass | Fail(error: string)

  /** A scalar configuration value as placed into a configuration namespace. */
  datatype Value = VNone | VStr(s: string) | VBool(b: bool) | VInt(i: int) | VReal(r: real) | VList(items: seq<string>)

  /** One namespace (`values['ue']`, `values['enb']`, ...) of a configuration tree. */
  type Namespace = map<string, Value>

  /** `config.overlay(values, dict(ns=patch))` for a patch of scalar values: every key of the
      patch replaces or adds, every other key of the base survives. */
  function Overlay(base: Namespace, patch: Namespace): (r: Namespace)
    ensures r.Keys == base.Keys + patch.Keys
    ensures forall k :: k in patch ==> r[k] == patch[k]
    ensures forall k :: k in base && k !in patch ==> r[k] == base[k]
  {
    base + patch
  }

  /** Python `ns.get(key, default)`. */
  function Get(ns: Namespace, key: string, default: Value): Value {
    if key in ns then ns[key] else default
  }

  /** A key holds `v` after an overlay when the patch sets it to `v`, or leaves it at `v`. */
  lemma OverlayHas(base: Namespace, patch: Namespace, key: string, v: Value)
    requires if key in patch then patch[key] == v else key in base && base[key] == v
    ensures key in Overlay(base, patch) && Overlay(base, patch)[key] == v
  {
  }

  /** A key the patch does not set reads as it does in the base. */
  lemma GetUnpatched(base: Namespace, patch: Namespace, key: string, default: Value)
    requires key !in patch
    ensures Get(Overlay(base, patch), key, default) == Get(base, key, default)
  {
  }

  /** The string held by a key, if the key is present with a string value. */
  function GetStr(ns: Namespace, key: string): Option<string> {
    if key in ns && ns[key].VStr? then Some(ns[key].s) else None
  }

  /** Python `int(x)` of a configuration value: an integer as it is, a boolean as 0 or 1, a
      real truncated toward zero and a decimal literal as its value; any other string raises
      `ValueError`, `None` and lists raise `TypeError`. */
  function PyInt(v: Value): (r: Result<int>)
    ensures v.VInt? ==> r == Ok(v.i)
    ensures v.VStr? ==> (r.Ok? <==> IsIntLiteral(v.s)) && (r.Ok? ==> r.value == IntLiteralValue(v.s))
    ensures v.VReal? ==>
      r.Ok? && (v.r >= 0.0 ==> 0.0 <= v.r - r.value as real < 1.0) &&
      (v.r < 0.0 ==> 0.0 <= r.value as real - v.r < 1.0)
    ensures v.VNone? || v.VList? ==> r.Err?
  {
    match v
    case VInt(i) => Ok(i)
    case VBool(b) => Ok(if b then 1 else 0)
    case VReal(x) => Ok(if x >= 0.0 then x.Floor else -((-x).Floor))
    case VStr(s) =>
      if IsIntLiteral(s) then Ok(IntLiteralValue(s))
      else Err("ValueError: invalid literal for int() with base 10: '" + s + "'")
    case VNone => Err("TypeError: int() argument must be a string or a number, not 'NoneType'")
    case VList(_) => Err("TypeError: int() argument must be a string or a number, not 'list'")
  }

  /** A count written as a number or as its decimal text converts to that number. */
  lemma PyIntReadsBack(n: int)
    ensures PyInt(VInt(n)) == Ok(n) && PyInt(VStr(IntToString(n))) == Ok(n)
  {
    IntToStringValue(n);
  }

  /** `int(ns.get(key, default))`. */
  function GetInt(ns: Namespace, key: string, default: int): (r: Result<int>)
    ensures key !in ns ==> r == Ok(default)
    ensures key in ns ==> r == PyInt(ns[key])
  {
    PyInt(Get(ns, key, VInt(default)))
  }

  /** The strings of a list-valued key, or nothing. */
  function GetList(ns: Namespace, key: string): seq<string> {
    if key in ns && ns[key].VList? then ns[key].items else []
  }

  /** Where a controlled process runs: the master host itself, or a remote host reached over SSH. */
  datatype RunNode = RunNode(isLocal: bool, runAddr: string, sshUser: string, sshAddr: string,
                             sshPort: string, adbSerialId: string)

  /** A process as the harness sees it: its name and argument vector, everything it has
      printed so far, and whether it has terminated. */
  datatype ProcessHandle = ProcessHandle(name: string, argv: seq<string>, stdout: string, terminated: bool)

  /** A freshly launched process: nothing printed yet, still running. */
  function Launch(name: string, argv: seq<string>): ProcessHandle {
    ProcessHandle(name, argv, "", false)
  }

  /** The process after the test environment has stopped it. */
  function Stopped(p: ProcessHandle): ProcessHandle {
    p.(terminated := true)
  }

  /** `dir.child(name)`: a path inside a directory. */
  function Child(dir: string, name: string): string {
    dir + "/" + name
  }

  /** An operation on a remote host; whether it succeeds is decided by the environment. */
  datatype RemoteOp =
    | RecreateDir(path: string)
    | CreateDir(path: string)
    | ScpTo(what: string, src: string, dst: string)
    | ScpFrom(what: string, src: string, dst: string)
    | ChangeRpath(binary: string, lib: string)
    | SetCap(binary: string, caps: string)
    | CreateNetns(netns: string)

  /** Index of the first step that fails, or |steps| if none does. */
  function FirstFailure<T>(steps: seq<T>, ok: T -> bool): (n: nat)
    ensures n <= |steps|
    ensures forall i :: 0 <= i < n ==> ok(steps[i])
    ensures n < |steps| ==> !ok(steps[n])
  {
    if |steps| == 0 then 0
    else if !ok(steps[0]) then 0
    else 1 + FirstFailure(steps[1..], ok)
  }

  /** The steps a sequence that stops at its first failure attempts: all of them up to and
      including the first that fails. */
  function Attempted<T>(steps: seq<T>, ok: T -> bool): (r: seq<T>)
    ensures |r| <= |steps| && r == steps[..|r|]
    ensures |r| == if FirstFailure(steps, ok) < |steps| then FirstFailure(steps, ok) + 1 else |steps|
  {
    var n := FirstFailure(steps, ok);
    steps[..if n < |steps| then n + 1 else n]
  }

  /** The first failure is at `i` when the steps before `i` succeed and step `i`, if any, fails. */
  lemma FirstFailureAt<T>(steps: seq<T>, ok: T -> bool, i: nat)
    requires i <= |steps|
    requires forall k :: 0 <= k < i ==> ok(steps[k])
    requires i < |steps| ==> !ok(steps[i])
    ensures FirstFailure(steps, ok) == i
  {
  }

  /** Runs staging operations in order; the first failure raises and the rest are skipped. */
  method RunRemoteOps(ops: seq<RemoteOp>, ok: RemoteOp -> bool) returns (done: seq<RemoteOp>, out: Outcome)
    ensures done == Attempted(ops, ok)
    ensures out.Pass? <==> FirstFailure(ops, ok) == |ops|
  {
    done := [];
    var i := 0;
    while i < |ops|
      invariant 0 <= i <= |ops|
      invariant done == ops[..i]
      invariant forall j :: 0 <= j < i ==> ok(ops[j])
    {
      done := done + [ops[i]];
      if !ok(ops[i]) {
        FirstFailureAt(ops, ok, i);
        return done, Fail("remote operation failed");
      }
      i := i + 1;
    }
    FirstFailureAt(ops, ok, |ops|);
    out := Pass;
  }

  /** Every staging operation succeeds exactly when none is the first failure. */
  lemma AllSucceed<T>(steps: seq<T>, ok: T -> bool)
    ensures FirstFailure(steps, ok) == |steps| <==> forall i :: 0 <= i < |steps| ==> ok(steps[i])
  {
  }

  /** Copies an artifact back from the remote host. A failure is either re-raised or
      caught and logged, as the caller asks. */
  method Pull(op: RemoteOp, ok: RemoteOp -> bool, raiseOnFailure: bool) returns (out: Outcome)
    requires op.ScpFrom?
    ensures out.Fail? <==> raiseOnFailure && !ok(op)
  {
    if !ok(op) && raiseOnFailure {
      out := Fail("scp from remote host failed: " + op.what);
    } else {
      out := Pass;
    }
  }
}

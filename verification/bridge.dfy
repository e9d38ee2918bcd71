/** The native bridge that embeds CPython in the app (NotesApp/PythonBridge.c): a
    once-only initialisation latch, a bounded copy of error messages into caller buffers,
    NUL-terminated duplication of Python strings, and the run protocol that swaps
    `sys.stdout`/`sys.stderr` for capture buffers, runs the code in a fresh globals
    dictionary and restores the sinks on the way out. CPython itself is an oracle
    (`Python`): which C-API calls succeed, whether the runtime starts, which files exist,
    and what the executed code raises and prints. */
module Bridge {
  import opened Wrappers
  import Numbers

  const NUL: char := '\0'
  const RESOURCE_KEY: string := "PY_BRIDGE_RESOURCE_DIR"
  const INIT_FAILED: string := "Py_Initialize failed"
  const PATH_FAILED: string := "Failed to set sys.path for stdlib zip"
  const BUILTINS: string := "__builtins__"
  /** Size of the error buffer `pybridge_run` hands to its own initialisation. */
  const RUN_ERRBUF_LEN: nat := 128

  // ----- C strings -----

  /** `strlen`: the index of the first NUL, or the whole length when there is none. */
  function Strlen(s: seq<char>): (n: nat)
    ensures n <= |s|
    ensures forall i :: 0 <= i < n ==> s[i] != NUL
    ensures n < |s| ==> s[n] == NUL
  {
    Numbers.IndexOf(s, NUL)
  }

  /** The text a C string holds: everything before its first NUL. */
  function CString(s: seq<char>): (t: string)
    ensures NUL !in t && t <= s
  {
    s[..Strlen(s)]
  }

  lemma StrlenAt(s: seq<char>, n: nat)
    requires n < |s| && s[n] == NUL
    requires forall i :: 0 <= i < n ==> s[i] != NUL
    ensures Strlen(s) == n
  {
  }

  function Min(a: int, b: int): int {
    if a < b then a else b
  }

  /** What `set_error` leaves readable in a buffer of `len` bytes: the message cut to
      at most len - 1 characters, whole when it fits. */
  function Truncated(msg: string, len: nat): (t: string)
    requires len > 0
    ensures |t| < len && t <= msg
    ensures |msg| < len ==> t == msg
  {
    msg[..Min(|msg|, len - 1)]
  }

  /** `memcpy(dst, src, n)`. */
  method CopyChars(dst: array<char>, src: seq<char>, n: nat)
    requires n <= |src| && n <= dst.Length
    modifies dst
    ensures dst[..n] == src[..n]
    ensures dst[n..] == old(dst[n..])
  {
    var i := 0;
    while i < n
      invariant 0 <= i <= n
      invariant dst[..i] == src[..i]
      invariant dst[i..] == old(dst[i..])
    {
      dst[i] := src[i];
      i := i + 1;
    }
  }

  /** `set_error(buf, len, msg)`: nothing for a NULL buffer or a zero length; otherwise the
      message, cut to len - 1 characters, then a NUL, and nothing written past that NUL.
      `msg` is a C string, so the text it stands for holds no NUL and `strlen` counts all
      of it. */
  method SetError(buf: array?<char>, len: nat, msg: string)
    requires buf != null ==> len <= buf.Length
    requires NUL !in msg
    modifies buf
    ensures buf != null && len == 0 ==> buf[..] == old(buf[..])
    ensures buf != null && len > 0 ==>
      && HoldsMessage(buf[..], len, msg)
      && buf[|Truncated(msg, len)| + 1..] == old(buf[|Truncated(msg, len)| + 1..])
      && CString(buf[..]) == Truncated(msg, len)
  {
    if buf == null || len == 0 {
      return;
    }
    var n := Strlen(msg);
    if n >= len {
      n := len - 1;
    }
    assert n == |Truncated(msg, len)|;
    CopyChars(buf, msg, n);
    buf[n] := NUL;
    assert buf[n + 1..] == old(buf[n + 1..]);
    assert buf[..][..n] == msg[..n];
    ReadBack(buf[..], len, msg);
  }

  /** The buffer starts with the message cut for a buffer of `len` bytes, then a NUL. */
  predicate HoldsMessage(b: seq<char>, len: nat, msg: string)
    requires len > 0
  {
    var t := Truncated(msg, len);
    |t| < |b| && b[..|t|] == t && b[|t|] == NUL
  }

  /** Reading such a buffer as a C string gives the cut message back, when the message
      itself holds no NUL. */
  lemma ReadBack(b: seq<char>, len: nat, msg: string)
    requires len > 0 && HoldsMessage(b, len, msg) && NUL !in msg
    ensures CString(b) == Truncated(msg, len)
  {
    StrlenAt(b, |Truncated(msg, len)|);
  }

  /** Neither fixed message holds a NUL, and both fit the 128-byte buffer of
      `pybridge_run` whole. */
  lemma MessagesFit()
    ensures NUL !in INIT_FAILED && NUL !in PATH_FAILED
    ensures Truncated(INIT_FAILED, RUN_ERRBUF_LEN) == INIT_FAILED
    ensures Truncated(PATH_FAILED, RUN_ERRBUF_LEN) == PATH_FAILED
  {
  }

  // ----- sys.path priming -----

  /** `os.environ.get('PY_BRIDGE_RESOURCE_DIR') or ''`. */
  function ResourceDir(env: map<string, string>): string {
    if RESOURCE_KEY in env then env[RESOURCE_KEY] else ""
  }

  /** `os.path.join(res, name)` for a relative name on POSIX. */
  function PathJoin(dir: string, name: string): (p: string)
    requires dir != []
    ensures p == dir + name || p == dir + "/" + name
    ensures |p| > |name| && p[|p| - |name|..] == name
  {
    if dir[|dir| - 1] == '/' then dir + name else dir + "/" + name
  }

  /** The archives the priming script considers, in order; none without a resource
      directory. */
  function Candidates(res: string): (cs: seq<string>)
    ensures res == "" <==> cs == []
    ensures |cs| <= 2
  {
    if res == "" then [] else [PathJoin(res, "python-stdlib.zip"), PathJoin(res, "stdlib.zip")]
  }

  /** One iteration of the priming loop: `sys.path.insert(0, p)` when p exists and is not
      already on the path. */
  function Insert(path: seq<string>, p: string, present: string -> bool): seq<string> {
    if present(p) && p !in path then [p] + path else path
  }

  /** The path after the priming loop over `cs`. */
  function Primed(path: seq<string>, cs: seq<string>, present: string -> bool): seq<string>
    decreases |cs|
  {
    if cs == [] then path else Primed(Insert(path, cs[0], present), cs[1..], present)
  }

  predicate NoDuplicates(s: seq<string>) {
    forall i, j :: 0 <= i < j < |s| ==> s[i] != s[j]
  }

  /** Priming only ever puts archives in front of the old path. */
  lemma {:induction false} PrimedExtends(path: seq<string>, cs: seq<string>, present: string -> bool)
    ensures exists added :: Primed(path, cs, present) == added + path
    decreases |cs|
  {
    if cs == [] {
      assert Primed(path, cs, present) == [] + path;
    } else {
      var next := Insert(path, cs[0], present);
      PrimedExtends(next, cs[1..], present);
      var added :| Primed(next, cs[1..], present) == added + next;
      if present(cs[0]) && cs[0] !in path {
        assert Primed(path, cs, present) == (added + [cs[0]]) + path;
      } else {
        assert Primed(path, cs, present) == added + path;
      }
    }
  }

  /** After priming the path holds exactly the old entries and the existing candidates. */
  lemma {:induction false} PrimedMembers(path: seq<string>, cs: seq<string>, present: string -> bool)
    ensures forall q :: q in Primed(path, cs, present) <==> q in path || (q in cs && present(q))
    decreases |cs|
  {
    if cs != [] {
      PrimedMembers(Insert(path, cs[0], present), cs[1..], present);
      forall q
        ensures q in Primed(path, cs, present) <==> q in path || (q in cs && present(q))
      {
        assert q in cs <==> q == cs[0] || q in cs[1..];
      }
    }
  }

  /** Priming never adds an entry that is already on the path, so a path without
      duplicates stays without. */
  lemma {:induction false} PrimedNoDuplicates(path: seq<string>, cs: seq<string>, present: string -> bool)
    requires NoDuplicates(path)
    ensures NoDuplicates(Primed(path, cs, present))
    decreases |cs|
  {
    if cs != [] {
      var next := Insert(path, cs[0], present);
      if present(cs[0]) && cs[0] !in path {
        forall i, j | 0 <= i < j < |next|
          ensures next[i] != next[j]
        {
          if i == 0 {
            assert next[j] == path[j - 1];
          } else {
            assert next[i] == path[i - 1] && next[j] == path[j - 1];
          }
        }
      }
      PrimedNoDuplicates(next, cs[1..], present);
    }
  }

  /** Priming a second time changes nothing: every existing candidate is already there. */
  lemma {:induction false} PrimedIdempotent(path: seq<string>, cs: seq<string>, present: string -> bool)
    ensures Primed(Primed(path, cs, present), cs, present) == Primed(path, cs, present)
  {
    PrimedMembers(path, cs, present);
    PrimedNoOp(Primed(path, cs, present), cs, present);
  }

  /** The loop leaves a path alone when it already holds every existing candidate. */
  lemma {:induction false} PrimedNoOp(path: seq<string>, cs: seq<string>, present: string -> bool)
    requires forall q :: q in cs && present(q) ==> q in path
    ensures Primed(path, cs, present) == path
    decreases |cs|
  {
    if cs != [] {
      assert Insert(path, cs[0], present) == path;
      PrimedNoOp(path, cs[1..], present);
    }
  }

  /** With both archives present and neither on the path, `stdlib.zip` ends up first and
      `python-stdlib.zip` second, ahead of the old path. */
  lemma BothArchives(path: seq<string>, res: string, present: string -> bool)
    requires res != ""
    requires forall q :: q in Candidates(res) ==> present(q) && q !in path
    ensures Primed(path, Candidates(res), present)
         == [PathJoin(res, "stdlib.zip"), PathJoin(res, "python-stdlib.zip")] + path
  {
    var a, b := PathJoin(res, "python-stdlib.zip"), PathJoin(res, "stdlib.zip");
    assert |a| != |b|;
    var cs := Candidates(res);
    assert cs == [a, b] && cs[1..] == [b] && cs[1..][1..] == [];
    assert Insert(path, a, present) == [a] + path;
    assert b !in [a] + path;
    assert Insert([a] + path, b, present) == [b, a] + path;
    assert Primed([b, a] + path, [], present) == [b, a] + path;
  }

  /** `setenv("PY_BRIDGE_RESOURCE_DIR", resource_dir, 1)` when the directory is given and
      not empty. */
  function WithResourceDir(env: map<string, string>, resourceDir: Option<string>): (e: map<string, string>)
    ensures resourceDir.Some? && resourceDir.value != "" ==> ResourceDir(e) == resourceDir.value
    ensures !(resourceDir.Some? && resourceDir.value != "") ==> e == env
    ensures forall k :: k != RESOURCE_KEY ==> (k in e <==> k in env) && (k in env ==> e[k] == env[k])
  {
    if resourceDir.Some? && resourceDir.value != "" then env[RESOURCE_KEY := resourceDir.value] else env
  }

  // ----- The interpreter as the bridge sees it -----

  /** The C-API calls whose failure the bridge checks or passes on. */
  datatype Call =
    | PrimeImports    // `import os, sys` in the priming script
    | ImportSys | ImportIo
    | NewStdout | NewStderr     // io.StringIO()
    | SetStdout | SetStderr     // PyObject_SetAttrString on sys
    | NewGlobals | GetBuiltins  // PyDict_New, PyEval_GetBuiltins
    | GetValueOut | GetValueErr // buffer.getvalue()
    | Utf8Out | Utf8Err         // PyUnicode_AsUTF8
    | AllocOut | AllocErr | AllocInitError  // malloc

  /** The globals the code runs in: no dictionary, or a dictionary binding these names. */
  datatype Scope = NoDict | Dict(names: set<string>)

  /** What running the code does: whether it raised, what it wrote to each stream, and
      the traceback `PyErr_Print` writes to the error stream. */
  datatype Exec = Exec(raised: bool, out: string, err: string, traceback: string)

  datatype Python = Python(
    starts: bool,
    ok: Call -> bool,
    present: string -> bool,
    exec: (string, Scope) -> Exec)

  /** The dictionary `pybridge_run` creates for each call: new, holding `__builtins__`
      only. */
  function FreshScope(py: Python): Scope {
    if !py.ok(NewGlobals) then NoDict
    else if py.ok(GetBuiltins) then Dict({BUILTINS})
    else Dict({})
  }

  /** A Python stream object (the original sinks, or a StringIO made by the bridge). */
  datatype Stream = Stream(id: nat)

  function InitCode(up: bool, py: Python): int {
    if !up then -1 else if !py.ok(PrimeImports) then -2 else 0
  }

  function InitMessage(rc: int): string {
    if rc == -1 then INIT_FAILED else PATH_FAILED
  }

  /** The return code of a run on an initialised bridge: a setup failure (-10 .. -13),
      -1 when the code raised, otherwise 0. */
  function RunCode(code: string, py: Python): (rc: int)
    ensures rc in {0, -1, -10, -11, -12, -13}
    ensures rc == -1 <==> rc > -10 && py.exec(code, FreshScope(py)).raised
    ensures rc <= -10 <==> !SetupSucceeds(py)
  {
    if !SetupSucceeds(py) then SetupCode(py)
    else if py.exec(code, FreshScope(py)).raised then -1
    else 0
  }

  /** The code of the first setup step that fails, 0 when all succeed: importing `sys`
      and `io` (-10), making the two StringIO buffers (-11), binding `sys.stdout` (-12)
      and `sys.stderr` (-13). */
  function SetupCode(py: Python): (rc: int)
    ensures rc in {0, -10, -11, -12, -13}
  {
    if !(py.ok(ImportSys) && py.ok(ImportIo)) then -10
    else if !(py.ok(NewStdout) && py.ok(NewStderr)) then -11
    else if !py.ok(SetStdout) then -12
    else if !py.ok(SetStderr) then -13
    else 0
  }

  predicate SetupSucceeds(py: Python) {
    SetupCode(py) == 0
  }

  /** What ends up in the captured error stream: the code's own output, then the
      traceback when it raised. */
  function ErrText(e: Exec): string {
    if e.raised then e.err + e.traceback else e.err
  }

  /** `char*` out-parameter of the caller. */
  class StrSlot {
    var ptr: array?<char>
    constructor()
      ensures ptr == null
    {
      ptr := null;
    }
  }

  /** `int*` out-parameter of the caller. */
  class IntSlot {
    var value: int
    constructor()
      ensures value == 0
    {
      value := 0;
    }
  }

  /** A buffer holding the text t as a C string. */
  predicate Holds(p: array<char>, t: string)
    reads p
  {
    p[..] == t + [NUL]
  }

  class PyBridge {
    /** `g_initialized`. */
    var initialized: bool
    /** The process environment. */
    var env: map<string, string>
    /** `Py_IsInitialized()`. */
    var pyUp: bool
    var sysPath: seq<string>
    /** The objects bound to `sys.stdout` and `sys.stderr`; None when unbound. */
    var sysStdout: Option<Stream>
    var sysStderr: Option<Stream>
    var nextStream: nat
    /** The buffers handed to callers and not yet freed. */
    ghost var live: set<array<char>>

    constructor(env0: map<string, string>, path0: seq<string>, out0: Option<Stream>, err0: Option<Stream>, next0: nat)
      ensures !initialized && !pyUp && env == env0 && sysPath == path0
      ensures sysStdout == out0 && sysStderr == err0 && nextStream == next0 && live == {}
    {
      initialized, env, pyUp, sysPath := false, env0, false, path0;
      sysStdout, sysStderr, nextStream, live := out0, err0, next0, {};
    }

    /** The priming script's loop over the candidates. */
    method PrimeSysPath(res: string, present: string -> bool)
      modifies this`sysPath
      ensures sysPath == Primed(old(sysPath), Candidates(res), present)
    {
      var candidates := Candidates(res);
      var i := 0;
      while i < |candidates|
        invariant 0 <= i <= |candidates|
        invariant Primed(sysPath, candidates[i..], present) == Primed(old(sysPath), candidates, present)
      {
        var p := candidates[i];
        assert candidates[i..][1..] == candidates[i + 1..];
        if present(p) && p !in sysPath {
          sysPath := [p] + sysPath;
        }
        i := i + 1;
      }
    }

    /** `pybridge_initialize(resource_dir, errbuf, errbuf_len)`. Once initialised it returns
        0 and does nothing. Otherwise it records the resource directory, starts Python
        (-1 and a message when it does not come up), runs the priming script (-2 and a
        message when it raises) and only then sets the latch. */
    method Initialize(resourceDir: Option<string>, errbuf: array?<char>, errlen: nat, py: Python) returns (rc: int)
      requires errbuf != null ==> errlen <= errbuf.Length
      modifies this`initialized, this`env, this`pyUp, this`sysPath, errbuf
      ensures old(initialized) ==> rc == 0 && unchanged(this) && (errbuf != null ==> errbuf[..] == old(errbuf[..]))
      ensures !old(initialized) ==>
        && env == WithResourceDir(old(env), resourceDir)
        && pyUp == (old(pyUp) || py.starts)
        && rc == InitCode(pyUp, py)
        && (initialized <==> rc == 0)
        && sysPath == (if rc == 0 then Primed(old(sysPath), Candidates(ResourceDir(env)), py.present) else old(sysPath))
        && (rc == 0 && errbuf != null ==> errbuf[..] == old(errbuf[..]))
        && (rc != 0 && errbuf != null && errlen == 0 ==> errbuf[..] == old(errbuf[..]))
        && (rc != 0 && errbuf != null && errlen > 0 ==> HoldsMessage(errbuf[..], errlen, InitMessage(rc)))
        && (rc != 0 && errbuf != null && errlen > 0 ==>
              var n := |Truncated(InitMessage(rc), errlen)|;
              errbuf[n + 1..] == old(errbuf[n + 1..]))
    {
      if initialized {
        return 0;
      }
      if resourceDir.Some? && resourceDir.value != "" {
        env := env[RESOURCE_KEY := resourceDir.value];
      }
      pyUp := pyUp || py.starts;
      if !pyUp {
        MessagesFit();
        SetError(errbuf, errlen, INIT_FAILED);
        return -1;
      }
      if !py.ok(PrimeImports) {
        MessagesFit();
        SetError(errbuf, errlen, PATH_FAILED);
        return -2;
      }
      PrimeSysPath(ResourceDir(env), py.present);
      initialized := true;
      return 0;
    }

    /** `dup_pystring(s)`: NULL for a NULL object, a failed UTF-8 conversion or a failed
        allocation; otherwise a new buffer with the text up to its first NUL, then a NUL. */
    method DupPyString(s: Option<string>, utf8Ok: bool, allocOk: bool) returns (out: array?<char>)
      modifies this`live
      ensures out == null <==> s.None? || !utf8Ok || !allocOk
      ensures out != null ==> fresh(out) && Holds(out, CString(s.value)) && live == old(live) + {out}
      ensures out == null ==> live == old(live)
    {
      if s.None? || !utf8Ok {
        return null;
      }
      var u := s.value;
      var n := Strlen(u);
      if !allocOk {
        return null;
      }
      out := new char[n + 1];
      CopyChars(out, u, n);
      out[n] := NUL;
      assert out[..] == out[..n] + [NUL];
      live := live + {out};
    }

    /** The error line `pybridge_run` hands back when its own initialisation fails: a new
        buffer with the text of `buf`, a newline and a NUL; NULL when allocation fails. */
    method CopyLine(buf: array<char>, allocOk: bool) returns (e: array?<char>)
      modifies this`live
      ensures e == null <==> !allocOk
      ensures e != null ==> fresh(e) && Holds(e, CString(buf[..]) + "\n") && live == old(live) + {e}
      ensures e == null ==> live == old(live)
    {
      if !allocOk {
        return null;
      }
      var n := Strlen(buf[..]);
      e := new char[n + 2];
      CopyChars(e, buf[..], n);
      e[n] := '\n';
      e[n + 1] := NUL;
      assert e[..] == buf[..][..n] + "\n" + [NUL];
      live := live + {e};
    }

    /** `pybridge_run(code, out_stdout, out_stderr, exit_code)`: initialises the bridge when
        needed (on failure: its code, exit code 1, the message and a newline as stderr,
        stdout untouched), then captures and runs the code. */
    method Run(code: string, outStdout: StrSlot?, outStderr: StrSlot?, exitCode: IntSlot?, py: Python) returns (rc: int)
      modifies this, outStdout, outStderr, exitCode
      ensures old(live) <= live
      ensures !old(initialized) ==> pyUp == (old(pyUp) || py.starts) && (initialized <==> InitCode(pyUp, py) == 0)
      ensures !old(initialized) && !initialized ==>
        && rc == InitCode(pyUp, py) && rc != 0
        && (exitCode != null ==> exitCode.value == 1)
        && (outStdout != null && outStdout != outStderr ==> outStdout.ptr == old(outStdout.ptr))
        && (outStderr != null ==> (outStderr.ptr == null <==> !py.ok(AllocInitError)))
        && (outStderr != null && outStderr.ptr != null ==>
              fresh(outStderr.ptr) && Holds(outStderr.ptr, InitMessage(rc) + "\n"))
        && sysStdout == old(sysStdout) && sysStderr == old(sysStderr)
      ensures old(initialized) ==> initialized
      ensures initialized ==> Captured(code, outStdout, outStderr, exitCode, py, rc, old(sysStdout), old(sysStderr))
      ensures initialized && outStdout != null && outStdout.ptr != null ==> fresh(outStdout.ptr)
      ensures initialized && outStderr != null && outStderr.ptr != null ==> fresh(outStderr.ptr)
    {
      if !initialized {
        var r := AutoInitialize(outStderr, exitCode, py);
        if r != 0 {
          return r;
        }
      }
      rc := Capture(code, outStdout, outStderr, exitCode, py);
    }

    /** The start of `pybridge_run` on a bridge that is not yet initialised: initialise with
        no resource directory and a 128-byte error buffer; on failure hand back the message
        and a newline as stderr (NULL when that allocation fails) and exit code 1. */
    method AutoInitialize(outStderr: StrSlot?, exitCode: IntSlot?, py: Python) returns (r: int)
      requires !initialized
      modifies this`initialized, this`env, this`pyUp, this`sysPath, this`live, outStderr, exitCode
      ensures pyUp == (old(pyUp) || py.starts) && r == InitCode(pyUp, py)
      ensures initialized <==> r == 0
      ensures env == old(env)
      ensures sysPath == (if r == 0 then Primed(old(sysPath), Candidates(ResourceDir(env)), py.present) else old(sysPath))
      ensures r == 0 ==>
        && live == old(live)
        && (outStderr != null ==> outStderr.ptr == old(outStderr.ptr))
        && (exitCode != null ==> exitCode.value == old(exitCode.value))
      ensures r != 0 ==>
        && old(live) <= live
        && (exitCode != null ==> exitCode.value == 1)
        && (outStderr != null ==> (outStderr.ptr == null <==> !py.ok(AllocInitError)))
        && (outStderr != null && outStderr.ptr != null ==>
              fresh(outStderr.ptr) && Holds(outStderr.ptr, InitMessage(r) + "\n"))
    {
      var buf := new char[RUN_ERRBUF_LEN];
      r := Initialize(None, buf, RUN_ERRBUF_LEN, py);
      if r != 0 {
        MessagesFit();
        ReadBack(buf[..], RUN_ERRBUF_LEN, InitMessage(r));
        if outStderr != null {
          var e := CopyLine(buf, py.ok(AllocInitError));
          outStderr.ptr := e;
        }
        if exitCode != null {
          exitCode.value := 1;
        }
      }
    }

    /** What a run on an initialised bridge leaves behind. The return code follows the
        setup steps and the code's outcome; after a setup failure both outputs are NULL and
        the exit code 0; otherwise each output holds what the code wrote to that stream (the
        error stream with the traceback after it when the code raised), or NULL when
        reading it back fails. The sinks are put back whenever they could be read; an
        unbound sink that was replaced stays bound to the capture buffer. */
    ghost predicate Captured(code: string, outStdout: StrSlot?, outStderr: StrSlot?, exitCode: IntSlot?,
                             py: Python, rc: int, out0: Option<Stream>, err0: Option<Stream>)
      reads this, outStdout, outStderr, exitCode
      reads if outStdout != null && outStdout.ptr != null then {outStdout.ptr} else {}
      reads if outStderr != null && outStderr.ptr != null then {outStderr.ptr} else {}
    {
      var result := py.exec(code, FreshScope(py));
      && rc == RunCode(code, py)
      && (exitCode != null ==> exitCode.value == (if rc == -1 then 1 else 0))
      && (rc <= -10 && outStdout != null ==> outStdout.ptr == null)
      && (rc <= -10 && outStderr != null ==> outStderr.ptr == null)
      && (rc > -10 && outStdout != null && outStdout != outStderr ==>
            && (outStdout.ptr == null <==> !(py.ok(GetValueOut) && py.ok(Utf8Out) && py.ok(AllocOut)))
            && (outStdout.ptr != null ==> Holds(outStdout.ptr, CString(result.out))))
      && (rc > -10 && outStderr != null ==>
            && (outStderr.ptr == null <==> !(py.ok(GetValueErr) && py.ok(Utf8Err) && py.ok(AllocErr)))
            && (outStderr.ptr != null ==> Holds(outStderr.ptr, CString(ErrText(result)))))
      && (out0.Some? ==> sysStdout == out0)
      && (err0.Some? ==> sysStderr == err0)
      && (out0.None? ==> (sysStdout.Some? <==> rc in {0, -1, -13}))
      && (err0.None? ==> (sysStderr.Some? <==> rc in {0, -1}))
    }

    /** The part of `pybridge_run` after initialisation: reset the outputs, swap the sinks
        for StringIO buffers, run the code in a fresh globals dictionary, collect the
        buffers, and restore the sinks on every path that reaches the end. */
    method Capture(code: string, outStdout: StrSlot?, outStderr: StrSlot?, exitCode: IntSlot?, py: Python) returns (rc: int)
      modifies this`sysStdout, this`sysStderr, this`nextStream, this`live, outStdout, outStderr, exitCode
      ensures old(live) <= live
      ensures outStdout != null && outStdout.ptr != null ==> fresh(outStdout.ptr)
      ensures outStderr != null && outStderr.ptr != null ==> fresh(outStderr.ptr)
      ensures Captured(code, outStdout, outStderr, exitCode, py, rc, old(sysStdout), old(sysStderr))
    {
      ResetOutputs(outStdout, outStderr, exitCode);
      var oldOut, oldErr;
      rc, oldOut, oldErr := Swap(py);
      if rc == 0 {
        var result := py.exec(code, FreshScope(py));
        if result.raised {
          rc := -1;
        }
        if exitCode != null {
          exitCode.value := if result.raised then 1 else 0;
        }
        Collect(result, outStdout, outStderr, py);
      }
      Restore(oldOut, oldErr);
    }

    /** The outputs a run starts from: both strings NULL and the exit code 0. */
    static method ResetOutputs(outStdout: StrSlot?, outStderr: StrSlot?, exitCode: IntSlot?)
      modifies outStdout, outStderr, exitCode
      ensures outStdout != null ==> outStdout.ptr == null
      ensures outStderr != null ==> outStderr.ptr == null
      ensures exitCode != null ==> exitCode.value == 0
    {
      if outStdout != null {
        outStdout.ptr := null;
      }
      if outStderr != null {
        outStderr.ptr := null;
      }
      if exitCode != null {
        exitCode.value := 0;
      }
    }

    /** The end of `pybridge_run`: each sink that was read is bound again. */
    method Restore(oldOut: Option<Stream>, oldErr: Option<Stream>)
      modifies this`sysStdout, this`sysStderr
      ensures sysStdout == if oldOut.Some? then oldOut else old(sysStdout)
      ensures sysStderr == if oldErr.Some? then oldErr else old(sysStderr)
    {
      if oldOut.Some? {
        sysStdout := oldOut;
      }
      if oldErr.Some? {
        sysStderr := oldErr;
      }
    }

    /** The setup steps of `pybridge_run`, each jumping to the end on failure: import `sys`
        and `io`, read the current sinks (None when unbound), make two StringIO buffers,
        then bind `sys.stdout` and `sys.stderr` to them. */
    method Swap(py: Python) returns (rc: int, oldOut: Option<Stream>, oldErr: Option<Stream>)
      modifies this`sysStdout, this`sysStderr, this`nextStream
      ensures rc == SetupCode(py)
      ensures rc != -10 ==> oldOut == old(sysStdout) && oldErr == old(sysStderr)
      ensures rc == -10 ==> oldOut.None? && oldErr.None?
      ensures rc in {-10, -11, -12} ==> sysStdout == old(sysStdout)
      ensures rc in {0, -13} ==> sysStdout.Some?
      ensures rc == 0 ==> sysStderr.Some?
      ensures rc != 0 ==> sysStderr == old(sysStderr)
    {
      oldOut, oldErr := None, None;
      var newOut: Option<Stream> := None;
      var newErr: Option<Stream> := None;
      rc := 0;
      label done: {
        if !py.ok(ImportSys) || !py.ok(ImportIo) {
          rc := -10;
          break done;
        }
        oldOut := sysStdout;
        oldErr := sysStderr;
        if py.ok(NewStdout) {
          newOut := Some(Stream(nextStream));
          nextStream := nextStream + 1;
        }
        if py.ok(NewStderr) {
          newErr := Some(Stream(nextStream));
          nextStream := nextStream + 1;
        }
        if newOut.None? || newErr.None? {
          rc := -11;
          break done;
        }
        if !py.ok(SetStdout) {
          rc := -12;
          break done;
        }
        sysStdout := newOut;
        if !py.ok(SetStderr) {
          rc := -13;
          break done;
        }
        sysStderr := newErr;
      }
    }

    /** Reading the buffers back after the code ran: each requested output gets a copy of
        what was written to that stream, or NULL when `getvalue`, the UTF-8 conversion or
        the allocation fails. */
    method Collect(result: Exec, outStdout: StrSlot?, outStderr: StrSlot?, py: Python)
      modifies this`live, outStdout, outStderr
      ensures old(live) <= live
      ensures outStdout != null && outStdout != outStderr ==>
        && (outStdout.ptr == null <==> !(py.ok(GetValueOut) && py.ok(Utf8Out) && py.ok(AllocOut)))
        && (outStdout.ptr != null ==> fresh(outStdout.ptr) && Holds(outStdout.ptr, CString(result.out)))
      ensures outStderr != null ==>
        && (outStderr.ptr == null <==> !(py.ok(GetValueErr) && py.ok(Utf8Err) && py.ok(AllocErr)))
        && (outStderr.ptr != null ==> fresh(outStderr.ptr) && Holds(outStderr.ptr, CString(ErrText(result))))
    {
      if outStdout != null {
        var s := if py.ok(GetValueOut) then Some(result.out) else None;
        var p := DupPyString(s, py.ok(Utf8Out), py.ok(AllocOut));
        outStdout.ptr := p;
      }
      if outStderr != null {
        var s := if py.ok(GetValueErr) then Some(ErrText(result)) else None;
        var p := DupPyString(s, py.ok(Utf8Err), py.ok(AllocErr));
        outStderr.ptr := p;
      }
    }

    /** Two runs of the same code on an initialised bridge: each hands the interpreter the
        scope `FreshScope(py)`, a new dictionary built from nothing the first run did, so
        with the interpreter as a fixed oracle both runs report the same return code and
        exit code. */
    method RunTwice(code: string, py: Python) returns (rc1: int, rc2: int, exit1: int, exit2: int)
      requires initialized
      modifies this
      ensures rc1 == rc2 == RunCode(code, py)
      ensures exit1 == exit2 == (if rc1 == -1 then 1 else 0)
    {
      var e1 := new IntSlot();
      var e2 := new IntSlot();
      rc1 := Run(code, null, null, e1, py);
      rc2 := Run(code, null, null, e2, py);
      exit1, exit2 := e1.value, e2.value;
    }

    /** `pybridge_free(p)`: gives a buffer the bridge handed out back; NULL is ignored. */
    method Free(p: array?<char>)
      requires p == null || p in live
      modifies this`live
      ensures p != null ==> live == old(live) - {p}
      ensures p == null ==> live == old(live)
    {
      if p != null {
        live := live - {p};
      }
    }
  }
}

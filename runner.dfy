/**
 * The plugin runner: each run writes the plugin's code to a file named after the
 * plugin in the runner's directory, starts `bun run` on it once, and removes the
 * file again. The file system is an object with files, directories and a log of
 * the processes started; a process's exit is a function of the script it reads.
 * The system's temporary directory and every file-system failure are inputs.
 */
module PluginRunner {
  import opened Prelude
  import Decimal

  /** How a `bun run` process ended: its exit error, if any, and its combined output. */
  datatype Exit = Exit(error: Option<string>, output: string)

  /** A process that was started: its argument vector and the script file's contents at that time. */
  datatype Started = Started(argv: seq<string>, script: string)

  /** The part of the operating system the runner touches. */
  class Os {
    var files: map<string, string>
    var dirs: set<string>
    var started: seq<Started>

    constructor (files: map<string, string>, dirs: set<string>)
      ensures this.files == files && this.dirs == dirs && started == []
    {
      this.files := files;
      this.dirs := dirs;
      started := [];
    }
  }

  /** `filepath.Join(dir, name)` for a clean directory path and a plain file name. */
  function Join(dir: string, name: string): string {
    dir + "/" + name
  }

  /** The runner's directory under the system's temporary directory. */
  function PluginDir(temp: string): string {
    Join(temp, "bundeck-plugins")
  }

  /** The script file of plugin `id`: `<dir>/<id>.ts`. */
  function TempPath(dir: string, id: int): (p: string)
    ensures |p| > |dir| + 4 && p[..|dir| + 1] == dir + "/" && p[|p| - 3..] == ".ts"
  {
    Join(dir, Decimal.Itoa(id) + ".ts")
  }

  /** Distinct plugins get distinct script files. */
  lemma TempPathInjective(dir: string, a: int, b: int)
    requires Decimal.InInt64(a) && Decimal.InInt64(b)
    requires TempPath(dir, a) == TempPath(dir, b)
    ensures a == b
  {
    var p := TempPath(dir, a);
    var n := |dir| + 1;
    assert p[n..|p| - 3] == Decimal.Itoa(a);
    assert TempPath(dir, b)[n..|TempPath(dir, b)| - 3] == Decimal.Itoa(b);
    Decimal.ItoaInjective(a, b);
  }

  /** The runner: only its directory. */
  datatype Runner = Runner(tempDir: string)

  /**
   * `NewRunner`: `os.MkdirAll` of `<temp>/bundeck-plugins`, which creates missing
   * parents and does nothing when the directory is already there; `fault` is the
   * failure of creating it.
   */
  method NewRunner(os: Os, temp: string, fault: Option<string>) returns (r: Result<Runner, string>)
    modifies os
    ensures os.files == old(os.files) && os.started == old(os.started)
    ensures PluginDir(temp) in old(os.dirs) ==> r == Ok(Runner(PluginDir(temp))) && os.dirs == old(os.dirs)
    ensures PluginDir(temp) !in old(os.dirs) && fault.Some? ==>
      r == Err("failed to create temp directory: " + fault.value) && os.dirs == old(os.dirs)
    ensures PluginDir(temp) !in old(os.dirs) && fault.None? ==>
      r == Ok(Runner(PluginDir(temp))) && os.dirs == old(os.dirs) + {temp, PluginDir(temp)}
    ensures r.Ok? ==> r.value.tempDir in os.dirs
  {
    var dir := PluginDir(temp);
    if dir in os.dirs {
      return Ok(Runner(dir));
    }
    if fault.Some? {
      return Err("failed to create temp directory: " + fault.value);
    }
    os.dirs := os.dirs + {temp, dir};
    r := Ok(Runner(dir));
  }

  /** The error of a run that exited with `e`. */
  function RunError(e: string, output: string): string {
    "failed to run plugin: " + e + "\nOutput: " + output
  }

  /**
   * How `os.WriteFile` can fail: opening the file (with `O_CREATE|O_TRUNC`) fails and
   * leaves the file system as it was, or the open succeeds and writing or closing
   * fails after `written` characters (the model counts characters, not UTF-8 bytes),
   * leaving the file behind holding the first `written` characters of the code.
   */
  datatype WriteFailure =
    | OpenFailed(msg: string)
    | WriteFailed(msg: string, written: nat)

  /** What a failed `os.WriteFile` of `code` leaves at `path`. */
  function AfterFailedWrite(files: map<string, string>, path: string, code: string, f: WriteFailure):
    (r: map<string, string>)
    ensures f.OpenFailed? ==> r == files
    ensures f.WriteFailed? ==> path in r && r[path] <= code && |r[path]| == Min(f.written, |code|)
    ensures forall p :: p != path ==> (p in r <==> p in files) && (p in r ==> r[p] == files[p])
  {
    match f
    case OpenFailed(_) => files
    case WriteFailed(_, n) => files[path := code[..Min(n, |code|)]]
  }

  function Min(a: nat, b: nat): nat {
    if a < b then a else b
  }

  /**
   * `Runner.Run`: writes `code` to the plugin's script file, runs `bun run` on it and
   * removes the file. `writeFault` is the failure of the write, after which nothing is
   * started and, because the removal is only deferred after a successful write, nothing
   * removed; `bun` gives the exit of a process for the script it reads.
   */
  method Run(runner: Runner, os: Os, id: int, code: string, writeFault: Option<WriteFailure>, bun: string -> Exit)
    returns (out: string, err: Option<string>)
    modifies os
    ensures os.dirs == old(os.dirs)
    ensures writeFault.Some? ==>
      out == "" && err == Some("failed to write temp file: " + writeFault.value.msg) &&
      os.files == AfterFailedWrite(old(os.files), TempPath(runner.tempDir, id), code, writeFault.value) &&
      os.started == old(os.started)
    ensures writeFault.None? ==>
      var path := TempPath(runner.tempDir, id);
      && os.started == old(os.started) + [Started(["bun", "run", path], code)]
      && os.files == old(os.files) - {path}
      && (bun(code).error.None? ==> out == bun(code).output && err == None)
      && (bun(code).error.Some? ==> out == "" && err == Some(RunError(bun(code).error.value, bun(code).output)))
  {
    var path := TempPath(runner.tempDir, id);
    if writeFault.Some? {
      os.files := AfterFailedWrite(os.files, path, code, writeFault.value);
      return "", Some("failed to write temp file: " + writeFault.value.msg);
    }
    os.files := os.files[path := code];
    var exit := bun(os.files[path]);
    os.started := os.started + [Started(["bun", "run", path], os.files[path])];
    if exit.error.Some? {
      out, err := "", Some(RunError(exit.error.value, exit.output));
    } else {
      out, err := exit.output, None;
    }
    os.files := os.files - {path};
  }
}

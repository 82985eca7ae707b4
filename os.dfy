/**
 * What the shell asks of the operating system, as data: the streams a process's standard
 * input and output can be bound to, the answers of stat/access/open/chdir/execve, and the
 * status a waited-for child reports. The world is a fixed oracle: the model never asks how
 * the system computes its answers, only what the shell does with them.
 */
module Os {
  import opened Wrappers

  /** What descriptor 0 or 1 refers to. */
  datatype Stream =
    | Terminal
    | ReadFile(path: string)
    | WriteFile(path: string, append: bool)
    | HeredocPipe(delimiter: string)
    | PipeRead
    | PipeWrite

  /** The two descriptors the shell rebinds: standard input and standard output. */
  datatype Fds = Fds(input: Stream, output: Stream)

  datatype Errno = ENOENT | EACCES | EISDIR | OtherErrno(code: nat)

  /** What stat says about a path, with what access(path, X_OK) says when stat succeeds. */
  datatype StatResult = Found(isDir: bool, executable: bool) | StatFailed(err: Errno)

  /** The outcome of open. */
  datatype OpenResult = Opened | OpenFailed(err: Errno)

  /** The outcome of chdir: on success, what getcwd then reports (None when it fails). */
  datatype ChdirResult = Entered(cwd: Option<string>) | ChdirFailed(err: Errno)

  /** A child's status as waitpid reports it. */
  datatype WaitStatus = Exited(code: int) | Signaled(signal: nat) | Stopped

  /** The outcome of execve: it fails with an errno, or the program runs to a wait status. */
  datatype ExecResult = ExecFails(err: Errno) | Ran(status: WaitStatus)

  /**
   * The answers the system gives. `openRead` is open(O_RDONLY); `openWrite(p, append)` is
   * open(O_WRONLY | O_CREAT | O_TRUNC or O_APPEND); `enter(cwd, p)` is chdir(p) from the
   * directory getcwd reports as `cwd`; `exec` is execve; `describe` is strerror; `cwdErr`
   * is the errno of a failing getcwd; `pipeFails`/`forkFails` say whether pipe and fork fail.
   */
  datatype World = World(
    stat: string -> StatResult,
    openRead: string -> OpenResult,
    openWrite: (string, bool) -> OpenResult,
    enter: (Option<string>, string) -> ChdirResult,
    exec: (string, seq<string>, seq<string>) -> ExecResult,
    describe: Errno -> string,
    cwdErr: Errno,
    pipeFails: Option<Errno>,
    forkFails: Option<Errno>)

  /** What perror(prefix) writes for `err`. */
  function Perror(world: World, prefix: string, err: Errno): string
  {
    prefix + ": " + world.describe(err) + "\n"
  }

  /** Each text tagged with the stream it is written to. */
  function Tagged(s: Stream, texts: seq<string>): (r: seq<(Stream, string)>)
    ensures |r| == |texts| && forall k :: 0 <= k < |texts| ==> r[k] == (s, texts[k])
  {
    seq(|texts|, k requires 0 <= k < |texts| => (s, texts[k]))
  }

  /** The code the parent sees for `exit(n)`: its low eight bits. */
  function ExitCode(n: int): (c: int)
    ensures 0 <= c < 256
    ensures (n - c) % 256 == 0
    ensures 0 <= n < 256 ==> c == n
  {
    n % 256
  }

  /**
   * The state of one process that the shell's logic touches: its working directory as
   * getcwd reports it (None when that fails), its standard descriptors, and what it has
   * written, each piece of output tagged with the stream it went to.
   */
  class Process {
    var cwd: Option<string>
    var fds: Fds
    var out: seq<(Stream, string)>
    var err: seq<string>

    constructor(cwd: Option<string>, fds: Fds)
      ensures this.cwd == cwd && this.fds == fds && out == [] && err == []
    {
      this.cwd := cwd;
      this.fds := fds;
      out := [];
      err := [];
    }

    /** A forked child: the same directory, the given descriptors, nothing written yet. */
    constructor Fork(parent: Process, fds: Fds)
      ensures cwd == parent.cwd && this.fds == fds && out == [] && err == []
    {
      cwd := parent.cwd;
      this.fds := fds;
      out := [];
      err := [];
    }

    /** write(1, s) or printf: `s` goes to whatever standard output is bound to now. */
    method Print(s: string)
      modifies this
      ensures out == old(out) + [(fds.output, s)]
      ensures cwd == old(cwd) && fds == old(fds) && err == old(err)
    {
      out := out + [(fds.output, s)];
    }

    /** A diagnostic on standard error, which no redirection here rebinds. */
    method Error(s: string)
      modifies this
      ensures err == old(err) + [s]
      ensures cwd == old(cwd) && fds == old(fds) && out == old(out)
    {
      err := err + [s];
    }
  }
}
